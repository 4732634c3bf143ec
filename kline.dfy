/** Values shared by both versions of the Bybit price downloader: the connector's
    parameters, the kline request it sends, the decoded response it receives and
    the failures a fetch can end in. */
module Kline {

  datatype Option<+T> = None | Some(value: T)

  datatype Result<+T, +E> = Success(value: T) | Failure(error: E)

  /** A JSON object field as Python's `dict.get` sees it: absent, present and
      `null`, or present with a value. */
  datatype Json<+T> = Missing | Null | Value(v: T)

  /** One candlestick row as the exchange sends it (open time, open, high, low,
      close, volume, turnover), written here as strings. The downloader never looks
      inside a row, so the type of each field plays no part in the model. */
  type Row = seq<string>

  /** The constructor arguments of `BybitConnector`: market category, symbol,
      interval code and the start and end date strings. They are never changed. */
  datatype Connector = Connector(category: string, symbol: string, interval: string, start: string, end: string)

  /** The query parameters of one GET to the kline endpoint. */
  datatype Request = Request(category: string, symbol: string, interval: string, start: int, limit: int)

  /** The decoded JSON object of a response: `retCode`, `retMsg` and `result`,
      where `result` is itself an object whose only field read is `list`. */
  datatype Body = Body(retCode: Json<int>, retMsg: Json<string>, result: Json<Json<seq<Row>>>)

  /** One HTTP response: its status code and its body, `None` when the body is not
      a JSON object (so that `response.json()` or the following `.get` raises). */
  datatype Response = Response(status: int, body: Option<Body>)

  /** Every way a fetch can fail. Python raises these; nothing is returned with them. */
  datatype Error =
    | InvalidDate(message: string)   // ValueError raised by the maintained `_to_unix_timestamp`
    | DateParseError(input: string)  // strptime's own ValueError, in the older file
    | HttpError(status: int)         // requests.HTTPError from `raise_for_status`
    | DecodeError                    // the body is not a JSON object
    | ApiError(message: string)      // ValueError("API error: ...")
    | MalformedResult                // `result` is null, so `.get("list")` raises AttributeError

  /** What one response means to the batching loop: a page of rows (an empty page
      ends the loop) or a failure that aborts the whole fetch. */
  datatype Step = Page(rows: seq<Row>) | Abort(err: Error)

  /** `response_data.get("result", {}).get("list", [])`: a missing `result` or
      `list`, or a null `list`, reads as no rows. A null `result` would make the
      second `.get` raise; the Python has no check for it, so each model's
      `Classify` tests for it before reading `list`. */
  function ListOf(result: Json<Json<seq<Row>>>): (rows: seq<Row>)
    ensures result.Value? && result.v.Value? ==> rows == result.v.v
    ensures result.Missing? || (result.Value? && !result.v.Value?) ==> rows == []
  {
    if result.Value? && result.v.Value? then result.v.v else []
  }
}
