/** The older `BybitConnector` (bybit_price_downloader.py at the repository root):
    the same interval table and batching loop, but no warning for an unknown
    interval, no handling of date errors, no `raise_for_status`, and one combined
    check of the HTTP status and `retCode` made after the body is decoded. */
module LegacyDownloader {
  import opened Kline
  import Pagination

  // ---------------------------------------------------------------------------
  // _interval_to_seconds

  /** Bybit interval codes and the length of one candle, in seconds. */
  const Conversion: map<string, int> := map[
    "1" := 60, "3" := 180, "5" := 300, "15" := 900, "30" := 1800,
    "60" := 3600, "120" := 7200, "240" := 14400, "360" := 21600, "720" := 43200,
    "D" := 86400, "W" := 604800, "M" := 2592000]

  /** `conversion.get(interval, 86400)`: unknown codes fall back to one day,
      silently. Every result is a positive whole number of minutes. */
  function IntervalToSeconds(interval: string): (seconds: int)
    ensures seconds >= 60 && seconds % 60 == 0
    ensures interval !in Conversion ==> seconds == 86400
  {
    if interval in Conversion then Conversion[interval] else 86400
  }

  // ---------------------------------------------------------------------------
  // _to_unix_timestamp

  /** `parse` stands for `strptime` followed by `int(dt.timestamp())`; `None` is
      strptime's ValueError, which this version lets through unchanged. */
  function ToUnixTimestamp(parse: string -> Option<int>, dateStr: string): (r: Result<int, Error>)
    ensures r.Success? <==> parse(dateStr).Some?
    ensures r.Success? ==> r.value == parse(dateStr).value
    ensures r.Failure? ==> r.error == DateParseError(dateStr)
  {
    match parse(dateStr)
    case Some(t) => Success(t)
    case None => Failure(DateParseError(dateStr))
  }

  // ---------------------------------------------------------------------------
  // get_prices

  /** `response_data.get('retMsg')` as an f-string formats it: absent and null
      both read `None`. */
  function ApiMessage(retMsg: Json<string>): (m: string)
    ensures retMsg.Value? ==> m == retMsg.v
    ensures !retMsg.Value? ==> m == "None"
  {
    if retMsg.Value? then retMsg.v else "None"
  }

  /** How the older loop body judges one response: decode the body, then fail
      unless the status is exactly 200 and `retCode` is 0, then read the rows. */
  function Classify(resp: Response): (s: Step)
    ensures s.Page? ==> resp.status == 200 && resp.body.Some? && resp.body.value.retCode == Value(0)
    ensures resp.body.None? ==> s == Abort(DecodeError)
    ensures resp.body.Some? && (resp.status != 200 || resp.body.value.retCode != Value(0))
            ==> s == Abort(ApiError("API error: " + ApiMessage(resp.body.value.retMsg)))
    ensures resp.body.Some? && resp.status == 200 && resp.body.value.retCode == Value(0)
            ==> s == (if resp.body.value.result.Null? then Abort(MalformedResult)
                      else Page(ListOf(resp.body.value.result)))
  {
    match resp.body
    case None => Abort(DecodeError)
    case Some(data) =>
      if resp.status != 200 || data.retCode != Value(0) then Abort(ApiError("API error: " + ApiMessage(data.retMsg)))
      else if data.result.Null? then Abort(MalformedResult)
      else Page(ListOf(data.result))
  }

  /** `get_prices(limit)` as a function: convert both dates (start first), look up
      the candle length, then run the batching loop. A request goes out only once
      both dates have converted, and the first one starts at the start date; a
      failure without any request is strptime's error for one of the dates. */
  function GetPricesSpec(conn: Connector, parse: string -> Option<int>, api: Request -> Response, limit: int): (run: Pagination.Run)
    requires limit >= 1
    ensures run.requests != [] ==>
      parse(conn.start).Some? && parse(conn.end).Some? && run.requests[0].start == parse(conn.start).value
    ensures run.requests == [] && run.outcome.Failure? ==>
      run.outcome.error == DateParseError(conn.start) || run.outcome.error == DateParseError(conn.end)
  {
    match ToUnixTimestamp(parse, conn.start)
    case Failure(e) => Pagination.Run([], Failure(e))
    case Success(startTs) =>
      match ToUnixTimestamp(parse, conn.end)
      case Failure(e) => Pagination.Run([], Failure(e))
      case Success(endTs) =>
        Pagination.RunFrom(conn, startTs, endTs, IntervalToSeconds(conn.interval), limit, api, Classify)
  }

  /** `BybitConnector.get_prices` of the older file. `api` answers each GET;
      `requests` records the query of every GET sent, in order. */
  method GetPrices(conn: Connector, parse: string -> Option<int>, api: Request -> Response, limit: int := 1000)
    returns (result: Result<seq<Row>, Error>, ghost requests: seq<Request>)
    requires limit >= 1
    ensures result == GetPricesSpec(conn, parse, api, limit).outcome
    ensures requests == GetPricesSpec(conn, parse, api, limit).requests
  {
    requests := [];
    var startConv := ToUnixTimestamp(parse, conn.start);
    if startConv.Failure? {
      return Failure(startConv.error), requests;
    }
    var endConv := ToUnixTimestamp(parse, conn.end);
    if endConv.Failure? {
      return Failure(endConv.error), requests;
    }
    var startTimestamp, endTimestamp := startConv.value, endConv.value;
    var secondsPerCandle := IntervalToSeconds(conn.interval);

    var allCandles: seq<Row> := [];
    var batchStart := startTimestamp;
    Pagination.PrependNothing(GetPricesSpec(conn, parse, api, limit));
    while batchStart < endTimestamp
      invariant GetPricesSpec(conn, parse, api, limit)
        == Pagination.Prepend(requests, allCandles,
             Pagination.RunFrom(conn, batchStart, endTimestamp, secondsPerCandle, limit, api, Classify))
      decreases endTimestamp - batchStart
    {
      var maxBatchEnd := batchStart + limit * secondsPerCandle;
      var batchEnd := if maxBatchEnd < endTimestamp then maxBatchEnd else endTimestamp;
      var candlesLimit := (batchEnd - batchStart) / secondsPerCandle;
      var request := Request(conn.category, conn.symbol, conn.interval, batchStart, candlesLimit);
      assert batchEnd == Pagination.BatchEnd(batchStart, endTimestamp, secondsPerCandle, limit);
      assert request == Pagination.BatchRequest(conn, batchStart, endTimestamp, secondsPerCandle, limit);
      ghost var sent := requests;
      requests := requests + [request];

      var response := api(request);
      if response.body.None? {
        return Failure(DecodeError), requests;
      }
      var responseData := response.body.value;
      if response.status != 200 || responseData.retCode != Value(0) {
        return Failure(ApiError("API error: " + ApiMessage(responseData.retMsg))), requests;
      }
      if responseData.result.Null? {
        return Failure(MalformedResult), requests;
      }
      var candles := ListOf(responseData.result);
      if candles == [] {
        assert allCandles + [] == allCandles;
        break;
      }
      Pagination.PrependTwice(sent, allCandles, request, candles,
        Pagination.RunFrom(conn, batchEnd, endTimestamp, secondsPerCandle, limit, api, Classify));
      allCandles := allCandles + candles;
      batchStart := batchEnd;
    }
    assert requests + [] == requests && allCandles + [] == allCandles;
    result := Success(allCandles);
  }

  // ---------------------------------------------------------------------------
  // What get_prices promises

  /** An unparseable date fails with strptime's error for that string, before any
      request; the start date is converted first. */
  lemma InvalidDateSendsNothing(conn: Connector, parse: string -> Option<int>, api: Request -> Response, limit: int)
    requires limit >= 1
    requires parse(conn.start).None? || parse(conn.end).None?
    ensures var run := GetPricesSpec(conn, parse, api, limit);
      run.requests == []
      && run.outcome == Failure(DateParseError(if parse(conn.start).None? then conn.start else conn.end))
  {
  }

  /** A window with `start >= end` sends nothing and returns no rows. */
  lemma EmptyWindowSendsNothing(conn: Connector, parse: string -> Option<int>, api: Request -> Response, limit: int)
    requires limit >= 1
    requires parse(conn.start).Some? && parse(conn.end).Some? && parse(conn.start).value >= parse(conn.end).value
    ensures GetPricesSpec(conn, parse, api, limit) == Pagination.Run([], Success([]))
  {
  }

  /** The requests follow the schedule over [start, end): the first starts at
      `start`, each later one where the previous batch ended (the cursor moves only
      after a non-empty page), starts rise strictly and stay below `end`, and each
      asks for between 0 and `limit` candles. The loop stops short of the schedule
      only after a page that failed or was empty. */
  lemma RequestsFollowSchedule(conn: Connector, parse: string -> Option<int>, api: Request -> Response, limit: int,
                               startTs: int, endTs: int)
    requires limit >= 1
    requires parse(conn.start) == Some(startTs) && parse(conn.end) == Some(endTs)
    ensures var spc := IntervalToSeconds(conn.interval);
      var reqs := GetPricesSpec(conn, parse, api, limit).requests;
      && reqs <= Pagination.Plan(conn, startTs, endTs, spc, limit)
      && (|reqs| > 0 <==> startTs < endTs)
      && (|reqs| > 0 ==> reqs[0].start == startTs)
      && (forall i | 0 <= i < |reqs| ::
            startTs <= reqs[i].start < endTs && 0 <= reqs[i].limit <= limit
            && Pagination.SameQuery(conn, reqs[i]))
      && (forall i | 0 <= i < |reqs| - 1 :: reqs[i + 1].start == Pagination.BatchEnd(reqs[i].start, endTs, spc, limit))
      && (forall i, j | 0 <= i < j < |reqs| :: reqs[i].start < reqs[j].start)
      && (|reqs| < |Pagination.Plan(conn, startTs, endTs, spc, limit)| ==>
            !Pagination.FullPage(Classify(api(reqs[|reqs| - 1]))))
  {
    var spc := IntervalToSeconds(conn.interval);
    Pagination.PlanShape(conn, startTs, endTs, spc, limit);
    Pagination.RunFollowsPlan(conn, startTs, endTs, spc, limit, api, Classify);
    var p := Pagination.Plan(conn, startTs, endTs, spc, limit);
    var reqs := GetPricesSpec(conn, parse, api, limit).requests;
    assert forall i | 0 <= i < |reqs| :: reqs[i] == p[i];
  }

  /** A failing response (bad body, status other than 200, non-zero `retCode`)
      fails the whole fetch with no rows; every page before the last was full; on
      success the rows of all pages come back concatenated in order, unchanged. */
  lemma FetchOutcome(conn: Connector, parse: string -> Option<int>, api: Request -> Response, limit: int,
                     startTs: int, endTs: int)
    requires limit >= 1
    requires parse(conn.start) == Some(startTs) && parse(conn.end) == Some(endTs)
    ensures var run := GetPricesSpec(conn, parse, api, limit);
      var n := |run.requests|;
      && (forall i | 0 <= i < n - 1 :: Pagination.FullPage(Classify(api(run.requests[i]))))
      && (run.outcome.Failure? <==> n > 0 && Classify(api(run.requests[n - 1])).Abort?)
      && (run.outcome.Failure? ==> run.outcome.error == Classify(api(run.requests[n - 1])).err)
      && (run.outcome.Success? ==> run.outcome.value == Pagination.Collected(run.requests, api, Classify))
  {
    Pagination.RunOutcome(conn, startTs, endTs, IntervalToSeconds(conn.interval), limit, api, Classify);
  }

  /** An accepted response (status 200, `retCode` 0) whose body has no `result`,
      or whose `result` has no `list` or a null one, reads as an empty page: the
      loop ends there, with this request as the last one sent and the rows
      collected by earlier batches as the result. */
  lemma {:induction false} MissingListEndsFetch(conn: Connector, cursor: int, end: int, spc: int, limit: int,
                                               api: Request -> Response, sent: seq<Request>, rows: seq<Row>)
    requires spc >= 1 && limit >= 1 && cursor < end
    requires var resp := api(Pagination.BatchRequest(conn, cursor, end, spc, limit));
      resp.status == 200 && resp.body.Some? && resp.body.value.retCode == Value(0)
      && (resp.body.value.result.Missing? || (resp.body.value.result.Value? && !resp.body.value.result.v.Value?))
    ensures Pagination.Prepend(sent, rows, Pagination.RunFrom(conn, cursor, end, spc, limit, api, Classify))
      == Pagination.Run(sent + [Pagination.BatchRequest(conn, cursor, end, spc, limit)], Success(rows))
  {
    var req := Pagination.BatchRequest(conn, cursor, end, spc, limit);
    assert Classify(api(req)) == Page([]);
    assert rows + [] == rows;
  }
}
