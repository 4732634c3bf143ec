/** The maintained `BybitConnector` (src/bybit_price_downloader.py): interval
    lookup with a warning for unknown codes, date conversion with its own error
    message, and `get_prices`, which checks the HTTP status with
    `raise_for_status` before it decodes the body and then checks `retCode`. */
module Downloader {
  import opened Kline
  import Pagination

  // ---------------------------------------------------------------------------
  // _interval_to_seconds

  /** Bybit interval codes and the length of one candle, in seconds. */
  const Conversion: map<string, int> := map[
    "1" := 60, "3" := 180, "5" := 300, "15" := 900, "30" := 1800,
    "60" := 3600, "120" := 7200, "240" := 14400, "360" := 21600, "720" := 43200,
    "D" := 86400, "W" := 604800, "M" := 2592000]

  /** The candle length and whether the lookup logged its "Unknown interval" warning. */
  datatype IntervalLookup = IntervalLookup(seconds: int, warned: bool)

  /** An unknown code falls back to one day and raises the warning; a known one is
      looked up silently. Every result is a positive whole number of minutes. */
  function IntervalToSeconds(interval: string): (r: IntervalLookup)
    ensures r.seconds >= 60 && r.seconds % 60 == 0
    ensures r.warned <==> interval !in Conversion
    ensures r.warned ==> r.seconds == 86400
  {
    if interval in Conversion then IntervalLookup(Conversion[interval], false)
    else IntervalLookup(86400, true)
  }

  predicate IsDecimal(s: string) {
    |s| > 0 && forall i | 0 <= i < |s| :: '0' <= s[i] <= '9'
  }

  /** The number a string of decimal digits denotes. */
  function DecimalValue(s: string): nat
    requires forall i | 0 <= i < |s| :: '0' <= s[i] <= '9'
  {
    if s == [] then 0 else 10 * DecimalValue(s[..|s| - 1]) + (s[|s| - 1] as int - '0' as int)
  }

  lemma DecimalValues()
    ensures DecimalValue("1") == 1 && DecimalValue("3") == 3 && DecimalValue("5") == 5
    ensures DecimalValue("15") == 15 && DecimalValue("30") == 30 && DecimalValue("60") == 60
    ensures DecimalValue("120") == 120 && DecimalValue("240") == 240
    ensures DecimalValue("360") == 360 && DecimalValue("720") == 720
  {
    assert "15"[..1] == "1" && "30"[..1] == "3" && "60"[..1] == "6";
    assert "120"[..2] == "12" && "12"[..1] == "1";
    assert "240"[..2] == "24" && "24"[..1] == "2";
    assert "360"[..2] == "36" && "36"[..1] == "3";
    assert "720"[..2] == "72" && "72"[..1] == "7";
  }

  lemma KnownCodes(code: string)
    requires code in Conversion
    ensures code in {"1", "3", "5", "15", "30", "60", "120", "240", "360", "720", "D", "W", "M"}
  {
  }

  lemma LettersAreNotDecimal(code: string)
    requires code in Conversion && IsDecimal(code)
    ensures code in {"1", "3", "5", "15", "30", "60", "120", "240", "360", "720"}
  {
    KnownCodes(code);
    assert '0' <= code[0] <= '9';
  }

  lemma TableCountsMinutes(code: string)
    requires code in {"1", "3", "5", "15", "30", "60", "120", "240", "360", "720"}
    ensures code in Conversion && Conversion[code] == 60 * DecimalValue(code)
  {
    DecimalValues();
  }

  /** A numeric interval code counts minutes: it is looked up as sixty times its
      value. */
  lemma MinuteCodes(code: string)
    requires code in Conversion && IsDecimal(code)
    ensures IntervalToSeconds(code) == IntervalLookup(60 * DecimalValue(code), false)
  {
    LettersAreNotDecimal(code);
    TableCountsMinutes(code);
  }

  /** The codes that are not numbers are whole days. */
  lemma DayCodes(code: string)
    requires code in Conversion && !IsDecimal(code)
    ensures IntervalToSeconds(code).seconds % 86400 == 0 && !IntervalToSeconds(code).warned
  {
    KnownCodes(code);
  }

  /** The letter codes: a day, a week and a thirty-day month. */
  lemma LetterCodes()
    ensures IntervalToSeconds("D") == IntervalLookup(86400, false)
    ensures IntervalToSeconds("W") == IntervalLookup(7 * 86400, false)
    ensures IntervalToSeconds("M") == IntervalLookup(30 * 86400, false)
  {
  }

  // ---------------------------------------------------------------------------
  // _to_unix_timestamp

  const DateFormatMessage: string := "Invalid date format. Use 'YYYY-MM-DD HH:MM:SS'."

  /** `parse` stands for `datetime.strptime(s, "%Y-%m-%d %H:%M:%S")` followed by
      `int(dt.timestamp())`, which depends on the host's time zone; `None` is the
      ValueError that the conversion turns into its own fixed message. */
  function ToUnixTimestamp(parse: string -> Option<int>, dateStr: string): (r: Result<int, Error>)
    ensures r.Success? <==> parse(dateStr).Some?
    ensures r.Success? ==> r.value == parse(dateStr).value
    ensures r.Failure? ==> r.error == InvalidDate(DateFormatMessage)
  {
    match parse(dateStr)
    case Some(t) => Success(t)
    case None => Failure(InvalidDate(DateFormatMessage))
  }

  // ---------------------------------------------------------------------------
  // get_prices

  /** `raise_for_status` raises for client and server errors only. */
  predicate IsHttpError(status: int): (raises: bool)
    ensures 200 <= status < 400 ==> !raises
    ensures status == 400 || status == 404 || status == 429 || status == 500 || status == 503 ==> raises
  {
    400 <= status < 600
  }

  /** `response_data.get("retMsg", "Unknown error from API.")`, as formatted: the
      default only when the key is absent, `None` for a null message. */
  function ApiMessage(retMsg: Json<string>): (m: string)
    ensures retMsg.Value? ==> m == retMsg.v
    ensures retMsg.Missing? ==> m == "Unknown error from API."
    ensures retMsg.Null? ==> m == "None"
  {
    match retMsg
    case Missing => "Unknown error from API."
    case Null => "None"
    case Value(m) => m
  }

  /** How the maintained loop body judges one response, in its order of checks:
      HTTP status, JSON decoding, `retCode`, then the row list. */
  function Classify(resp: Response): (s: Step)
    ensures s.Page? ==> !IsHttpError(resp.status) && resp.body.Some? && resp.body.value.retCode == Value(0)
    ensures IsHttpError(resp.status) ==> s == Abort(HttpError(resp.status))
    ensures !IsHttpError(resp.status) && resp.body.None? ==> s == Abort(DecodeError)
    ensures !IsHttpError(resp.status) && resp.body.Some? && resp.body.value.retCode != Value(0)
            ==> s == Abort(ApiError("API error: " + ApiMessage(resp.body.value.retMsg)))
    ensures !IsHttpError(resp.status) && resp.body.Some? && resp.body.value.retCode == Value(0)
            ==> s == (if resp.body.value.result.Null? then Abort(MalformedResult)
                      else Page(ListOf(resp.body.value.result)))
  {
    if IsHttpError(resp.status) then Abort(HttpError(resp.status))
    else match resp.body
      case None => Abort(DecodeError)
      case Some(data) =>
        if data.retCode != Value(0) then Abort(ApiError("API error: " + ApiMessage(data.retMsg)))
        else if data.result.Null? then Abort(MalformedResult)
        else Page(ListOf(data.result))
  }

  /** `get_prices(limit)` as a function: convert both dates (start first), look up
      the candle length, then run the batching loop. A request goes out only once
      both dates have converted, and the first one starts at the start date; a
      failure without any request is a date failure. */
  function GetPricesSpec(conn: Connector, parse: string -> Option<int>, api: Request -> Response, limit: int): (run: Pagination.Run)
    requires limit >= 1
    ensures run.requests != [] ==>
      parse(conn.start).Some? && parse(conn.end).Some? && run.requests[0].start == parse(conn.start).value
    ensures run.requests == [] && run.outcome.Failure? ==> run.outcome.error == InvalidDate(DateFormatMessage)
  {
    match ToUnixTimestamp(parse, conn.start)
    case Failure(e) => Pagination.Run([], Failure(e))
    case Success(startTs) =>
      match ToUnixTimestamp(parse, conn.end)
      case Failure(e) => Pagination.Run([], Failure(e))
      case Success(endTs) =>
        Pagination.RunFrom(conn, startTs, endTs, IntervalToSeconds(conn.interval).seconds, limit, api, Classify)
  }

  /** `BybitConnector.get_prices`. `api` answers each GET; `requests` records the
      query of every GET sent, in order. The result is the rows, or the exception
      the call raises (no rows come back with it). */
  method GetPrices(conn: Connector, parse: string -> Option<int>, api: Request -> Response, limit: int := 1000)
    returns (result: Result<seq<Row>, Error>, ghost requests: seq<Request>)
    requires limit >= 1
    ensures result == GetPricesSpec(conn, parse, api, limit).outcome
    ensures requests == GetPricesSpec(conn, parse, api, limit).requests
  {
    requests := [];
    var startConv := ToUnixTimestamp(parse, conn.start);
    if startConv.Failure? {
      return Failure(startConv.error), requests;
    }
    var endConv := ToUnixTimestamp(parse, conn.end);
    if endConv.Failure? {
      return Failure(endConv.error), requests;
    }
    var startTimestamp, endTimestamp := startConv.value, endConv.value;
    var secondsPerCandle := IntervalToSeconds(conn.interval).seconds;

    var allCandles: seq<Row> := [];
    var batchStart := startTimestamp;
    Pagination.PrependNothing(GetPricesSpec(conn, parse, api, limit));
    while batchStart < endTimestamp
      invariant GetPricesSpec(conn, parse, api, limit)
        == Pagination.Prepend(requests, allCandles,
             Pagination.RunFrom(conn, batchStart, endTimestamp, secondsPerCandle, limit, api, Classify))
      decreases endTimestamp - batchStart
    {
      var maxBatchEnd := batchStart + limit * secondsPerCandle;
      var batchEnd := if maxBatchEnd < endTimestamp then maxBatchEnd else endTimestamp;
      var candlesLimit := (batchEnd - batchStart) / secondsPerCandle;
      var request := Request(conn.category, conn.symbol, conn.interval, batchStart, candlesLimit);
      assert batchEnd == Pagination.BatchEnd(batchStart, endTimestamp, secondsPerCandle, limit);
      assert request == Pagination.BatchRequest(conn, batchStart, endTimestamp, secondsPerCandle, limit);
      ghost var sent := requests;
      requests := requests + [request];

      var response := api(request);
      if IsHttpError(response.status) {
        return Failure(HttpError(response.status)), requests;
      }
      if response.body.None? {
        return Failure(DecodeError), requests;
      }
      var responseData := response.body.value;
      if responseData.retCode != Value(0) {
        return Failure(ApiError("API error: " + ApiMessage(responseData.retMsg))), requests;
      }
      if responseData.result.Null? {
        return Failure(MalformedResult), requests;
      }
      var candles := ListOf(responseData.result);
      if candles == [] {
        assert allCandles + [] == allCandles;
        break;
      }
      Pagination.PrependTwice(sent, allCandles, request, candles,
        Pagination.RunFrom(conn, batchEnd, endTimestamp, secondsPerCandle, limit, api, Classify));
      allCandles := allCandles + candles;
      batchStart := batchEnd;
    }
    assert requests + [] == requests && allCandles + [] == allCandles;
    result := Success(allCandles);
  }

  // ---------------------------------------------------------------------------
  // What get_prices promises

  /** An unparseable start or end date fails with the fixed message before any
      request is sent. */
  lemma InvalidDateSendsNothing(conn: Connector, parse: string -> Option<int>, api: Request -> Response, limit: int)
    requires limit >= 1
    requires parse(conn.start).None? || parse(conn.end).None?
    ensures GetPricesSpec(conn, parse, api, limit) == Pagination.Run([], Failure(InvalidDate(DateFormatMessage)))
  {
  }

  /** A window with `start >= end` sends nothing and returns no rows. */
  lemma EmptyWindowSendsNothing(conn: Connector, parse: string -> Option<int>, api: Request -> Response, limit: int)
    requires limit >= 1
    requires parse(conn.start).Some? && parse(conn.end).Some? && parse(conn.start).value >= parse(conn.end).value
    ensures GetPricesSpec(conn, parse, api, limit) == Pagination.Run([], Success([]))
  {
  }

  /** The requests follow the schedule over [start, end): the first starts at
      `start`, each later one where the previous batch ended, starts rise strictly
      and stay below `end`, each asks for between 0 and `limit` candles, and all
      carry the connector's category, symbol and interval. The loop stops short of
      the schedule only after a page that failed or was empty. */
  lemma RequestsFollowSchedule(conn: Connector, parse: string -> Option<int>, api: Request -> Response, limit: int,
                               startTs: int, endTs: int)
    requires limit >= 1
    requires parse(conn.start) == Some(startTs) && parse(conn.end) == Some(endTs)
    ensures var spc := IntervalToSeconds(conn.interval).seconds;
      var reqs := GetPricesSpec(conn, parse, api, limit).requests;
      && reqs <= Pagination.Plan(conn, startTs, endTs, spc, limit)
      && (|reqs| > 0 <==> startTs < endTs)
      && (|reqs| > 0 ==> reqs[0].start == startTs)
      && (forall i | 0 <= i < |reqs| ::
            startTs <= reqs[i].start < endTs && 0 <= reqs[i].limit <= limit
            && Pagination.SameQuery(conn, reqs[i]))
      && (forall i | 0 <= i < |reqs| - 1 :: reqs[i + 1].start == Pagination.BatchEnd(reqs[i].start, endTs, spc, limit))
      && (forall i, j | 0 <= i < j < |reqs| :: reqs[i].start < reqs[j].start)
      && (|reqs| < |Pagination.Plan(conn, startTs, endTs, spc, limit)| ==>
            !Pagination.FullPage(Classify(api(reqs[|reqs| - 1]))))
  {
    var spc := IntervalToSeconds(conn.interval).seconds;
    Pagination.PlanShape(conn, startTs, endTs, spc, limit);
    Pagination.RunFollowsPlan(conn, startTs, endTs, spc, limit, api, Classify);
    var p := Pagination.Plan(conn, startTs, endTs, spc, limit);
    var reqs := GetPricesSpec(conn, parse, api, limit).requests;
    assert forall i | 0 <= i < |reqs| :: reqs[i] == p[i];
  }

  /** What the fetch returns: every page but the last was full; it fails exactly
      when the last response failed, with that response's error and no rows; on
      success it returns all pages' rows concatenated in order, unchanged. */
  lemma FetchOutcome(conn: Connector, parse: string -> Option<int>, api: Request -> Response, limit: int,
                     startTs: int, endTs: int)
    requires limit >= 1
    requires parse(conn.start) == Some(startTs) && parse(conn.end) == Some(endTs)
    ensures var run := GetPricesSpec(conn, parse, api, limit);
      var n := |run.requests|;
      && (forall i | 0 <= i < n - 1 :: Pagination.FullPage(Classify(api(run.requests[i]))))
      && (run.outcome.Failure? <==> n > 0 && Classify(api(run.requests[n - 1])).Abort?)
      && (run.outcome.Failure? ==> run.outcome.error == Classify(api(run.requests[n - 1])).err)
      && (run.outcome.Success? ==> run.outcome.value == Pagination.Collected(run.requests, api, Classify))
  {
    Pagination.RunOutcome(conn, startTs, endTs, IntervalToSeconds(conn.interval).seconds, limit, api, Classify);
  }

  /** An accepted response (status not 4xx/5xx, `retCode` 0) whose body has no `result`,
      or whose `result` has no `list` or a null one, reads as an empty page: the
      loop ends there, with this request as the last one sent and the rows
      collected by earlier batches as the result. */
  lemma {:induction false} MissingListEndsFetch(conn: Connector, cursor: int, end: int, spc: int, limit: int,
                                               api: Request -> Response, sent: seq<Request>, rows: seq<Row>)
    requires spc >= 1 && limit >= 1 && cursor < end
    requires var resp := api(Pagination.BatchRequest(conn, cursor, end, spc, limit));
      !IsHttpError(resp.status) && resp.body.Some? && resp.body.value.retCode == Value(0)
      && (resp.body.value.result.Missing? || (resp.body.value.result.Value? && !resp.body.value.result.v.Value?))
    ensures Pagination.Prepend(sent, rows, Pagination.RunFrom(conn, cursor, end, spc, limit, api, Classify))
      == Pagination.Run(sent + [Pagination.BatchRequest(conn, cursor, end, spc, limit)], Success(rows))
  {
    var req := Pagination.BatchRequest(conn, cursor, end, spc, limit);
    assert Classify(api(req)) == Page([]);
    assert rows + [] == rows;
  }

  /** When every scheduled page comes back full, the whole schedule is sent, the
      counts asked for add up to the number of whole candles in [start, end), and
      every page's rows are returned in order. */
  lemma CompleteFetch(conn: Connector, parse: string -> Option<int>, api: Request -> Response, limit: int,
                      startTs: int, endTs: int)
    requires limit >= 1
    requires parse(conn.start) == Some(startTs) && parse(conn.end) == Some(endTs)
    requires forall r | r in Pagination.Plan(conn, startTs, endTs, IntervalToSeconds(conn.interval).seconds, limit) ::
      Pagination.FullPage(Classify(api(r)))
    ensures var spc := IntervalToSeconds(conn.interval).seconds;
      var run := GetPricesSpec(conn, parse, api, limit);
      && run.requests == Pagination.Plan(conn, startTs, endTs, spc, limit)
      && Pagination.RequestedCount(run.requests) == (if startTs < endTs then (endTs - startTs) / spc else 0)
      && run.outcome == Success(Pagination.Collected(run.requests, api, Classify))
  {
    var spc := IntervalToSeconds(conn.interval).seconds;
    Pagination.RunComplete(conn, startTs, endTs, spc, limit, api, Classify);
    if startTs < endTs {
      Pagination.PlanCount(conn, startTs, endTs, spc, limit);
    }
  }

  // ---------------------------------------------------------------------------
  // The scenarios of tests/test_bybit_price_downloader.py

  /** A successful response carrying `rows`. */
  function OkResponse(rows: seq<Row>): Response {
    Response(200, Some(Body(Value(0), Value("OK"), Value(Value(rows)))))
  }

  /** Daily candles over one day with the default limit: one request for one
      candle, and the mocked page's rows come back as they are. */
  lemma OneDayScenario(conn: Connector, parse: string -> Option<int>, startTs: int, rows: seq<Row>)
    requires conn.interval == "D" && rows != []
    requires parse(conn.start) == Some(startTs) && parse(conn.end) == Some(startTs + 86400)
    ensures GetPricesSpec(conn, parse, _ => OkResponse(rows), 1000)
      == Pagination.Run([Request(conn.category, conn.symbol, "D", startTs, 1)], Success(rows))
  {
    var api: Request -> Response := _ => OkResponse(rows);
    var spc := IntervalToSeconds(conn.interval).seconds;
    assert spc == 86400;
    var endTs := startTs + 86400;
    assert Pagination.BatchEnd(startTs, endTs, spc, 1000) == endTs;
    assert Pagination.CandlesLimit(startTs, endTs, spc) == 1;
    var req := Request(conn.category, conn.symbol, "D", startTs, 1);
    assert Pagination.BatchRequest(conn, startTs, endTs, spc, 1000) == req;
    assert Classify(api(req)) == Page(rows);
    var rest := Pagination.RunFrom(conn, endTs, endTs, spc, 1000, api, Classify);
    assert rest == Pagination.Run([], Success([]));
    assert Pagination.RunFrom(conn, startTs, endTs, spc, 1000, api, Classify) == Pagination.Prepend([req], rows, rest);
    assert [req] + [] == [req] && rows + [] == rows;
  }

  /** A non-zero `retCode` fails the fetch with "API error: " and the API's message. */
  lemma ApiErrorScenario(conn: Connector, parse: string -> Option<int>, startTs: int, endTs: int, code: int, msg: string)
    requires code != 0 && startTs < endTs
    requires parse(conn.start) == Some(startTs) && parse(conn.end) == Some(endTs)
    ensures var resp := Response(200, Some(Body(Value(code), Value(msg), Missing)));
      GetPricesSpec(conn, parse, _ => resp, 1000).outcome == Failure(ApiError("API error: " + msg))
  {
  }

  /** A server error fails the fetch with the HTTP error, whatever the body is. */
  lemma ServerErrorScenario(conn: Connector, parse: string -> Option<int>, startTs: int, endTs: int, body: Option<Body>)
    requires startTs < endTs
    requires parse(conn.start) == Some(startTs) && parse(conn.end) == Some(endTs)
    ensures GetPricesSpec(conn, parse, _ => Response(500, body), 1000).outcome == Failure(HttpError(500))
  {
  }

  /** An empty first page ends the fetch with no rows and no error. */
  lemma EmptyPageScenario(conn: Connector, parse: string -> Option<int>, startTs: int, endTs: int)
    requires startTs < endTs
    requires parse(conn.start) == Some(startTs) && parse(conn.end) == Some(endTs)
    ensures var run := GetPricesSpec(conn, parse, _ => OkResponse([]), 1000);
      run.outcome == Success([]) && |run.requests| == 1
  {
  }

  /** A final sliver shorter than one candle is still requested, with limit 0. */
  lemma FinalSliverAsksForNothing(conn: Connector)
    ensures Pagination.Plan(conn, 0, 30, 60, 1000) == [Request(conn.category, conn.symbol, conn.interval, 0, 0)]
  {
    assert Pagination.BatchEnd(0, 30, 60, 1000) == 30;
  }
}
