# Bybit historical price downloader: a Dafny model of `get_prices`

The repository downloads candlestick (kline) rows from Bybit's public
`/v5/market/kline` endpoint. `BybitConnector.get_prices` covers a time window
`[start, end)` by cutting it into consecutive requests. Each request is bounded
both by the end of the window and by a row cap `limit` per request. The rows of
all pages are concatenated in order. Any failing page aborts the whole fetch.

Two versions are modelled:

- the maintained one, `src/bybit_price_downloader.py` (module `Downloader`);
- the older copy, `bybit_price_downloader.py` at the repository root (module
  `LegacyDownloader`). It has the same loop but handles errors differently.

The loop and its arithmetic are the same in both files. They are modelled once,
in module `Pagination`, with a parameter `classify` that says how a response is
judged. Module `Kline` holds the shared values (connector, request, decoded
response, errors). Module `Variants` relates the two versions.

How the model is built:

- `Connector` is a value: `__init__` stores five strings and nothing changes them.
- The HTTP call is a parameter `api: Request -> Response`. A response carries the
  status code and the decoded JSON object, or `None` when the body is not a JSON
  object.
- JSON fields are `Json<T> = Missing | Null | Value(T)`. This matches what
  `dict.get` does with an absent key and with a `null`.
- Date conversion (`strptime` then `int(dt.timestamp())`) is a parameter
  `parse: string -> Option<int>`.
- `GetPrices` is an imperative method with the source's `while` loop. It keeps a
  ghost log of every request sent. Its postcondition equates the request log and
  the result with the pure function `GetPricesSpec`, whose properties are lemmas.
- The result is `Success(rows)` or `Failure(error)`. Python raises on failure, so
  no rows come back with an error.

Behaviour of the code that the model keeps as written:

- The constructor only stores the date strings. A bad date fails inside
  `get_prices`, before any request.
- The maintained version's date error has a fixed message that does not carry
  the offending string. The string appears in the logged line and in strptime's
  error, which `raise ... from e` chains as the cause. The older version lets
  strptime's own error through, and that error usually names the input.
- The transport check is `raise_for_status`. It fails only for statuses
  400–599, so another 2xx status, or a 3xx one, goes on to the `retCode` check.
- The older version decodes the body before it looks at the status. A 500
  response with a non-JSON body therefore fails there with a decoding error,
  not with an HTTP error.

## Model

| member | source | states |
|---|---|---|
| `Pagination.BatchEnd` | src/bybit_price_downloader.py:115-116 | A batch never ends past `end` nor past `limit * spc` after the cursor; it ends at one of the two; for `limit >= 1` it ends strictly after the cursor |
| `Pagination.CandlesLimit` | src/bybit_price_downloader.py:117 | The count asked for is the number of whole candles between cursor and batch end: `n * spc <= batchEnd - cursor < (n + 1) * spc`, and never negative |
| `Pagination.BatchRequest` | src/bybit_price_downloader.py:119-125 | The request carries the connector's category, symbol and interval, the cursor as `start`, and `CandlesLimit(cursor, BatchEnd(...))` as `limit`, which lies in [0, `limit`] for a non-empty window |
| `Pagination.CountWithinLimit` | src/bybit_price_downloader.py:115-117 | Every batch asks for between 0 and `limit` candles; 0 happens on a final sliver shorter than one candle |
| `Pagination.PlanShape` | src/bybit_price_downloader.py:112-150 | The request schedule tiles `[start, end)`: it is empty exactly when `start >= end`; it begins at `start`; each request starts where the previous batch ended; starts rise strictly and stay below `end`; the last batch ends at `end`; every request carries the connector's category, symbol and interval |
| `Pagination.PlanCount` | src/bybit_price_downloader.py:115-117 | Over the whole schedule, the counts asked for sum to `(end - start) div spc`, because every full batch spans exactly `limit * spc` |
| `Pagination.RunFollowsPlan` | src/bybit_price_downloader.py:114-150 | The requests sent are a prefix of the schedule; none are sent for an empty window; the loop stops short of the schedule only after a page that failed or was empty |
| `Pagination.RunOutcome` | src/bybit_price_downloader.py:127-159 | Every request but the last got a full page; the fetch fails exactly when the last response was a failure, with that failure and no rows; on success it returns the concatenation of all pages' rows in request order, unchanged and without dedup |
| `Pagination.RunFrom` | src/bybit_price_downloader.py:114-150 | The loop from a cursor: it sends nothing exactly when the cursor has reached `end`, and then succeeds with no rows; otherwise its first request is the batch request for the cursor |
| `Pagination.RunComplete` | src/bybit_price_downloader.py:141-150 | If every scheduled page comes back non-empty, the whole schedule is sent and all rows are returned in order |
| `Pagination.RunsAgree` | bybit_price_downloader.py:98-124 | Two ways of judging responses that agree on every scheduled page give the same requests, the same success or failure, and the same rows |
| `Downloader.IntervalToSeconds` | src/bybit_price_downloader.py:72-91 | The warning is raised exactly for codes outside the table, and those fall back to 86400 s; every result is a positive whole number of minutes, at least 60 |
| `Downloader.MinuteCodes` | src/bybit_price_downloader.py:72-82 | Each numeric code (`1` … `720`) is looked up, without a warning, as sixty times the number it spells |
| `Downloader.DayCodes` | src/bybit_price_downloader.py:83-85 | Every code in the table that is not a number is a whole number of days and raises no warning |
| `Downloader.LetterCodes` | src/bybit_price_downloader.py:83-85 | `D` is 86400 s, `W` is 7 × 86400 s and `M` is 30 × 86400 s, each without a warning |
| `Downloader.ToUnixTimestamp` | src/bybit_price_downloader.py:52-59 | Conversion succeeds exactly when the date parses, with its timestamp; otherwise it fails with "Invalid date format. Use 'YYYY-MM-DD HH:MM:SS'." |
| `Downloader.IsHttpError` | src/bybit_price_downloader.py:131 | `raise_for_status` never raises for a 2xx or 3xx status, and raises for client and server errors such as 400, 404, 429, 500 and 503 |
| `Downloader.ApiMessage` | src/bybit_price_downloader.py:135-137 | The error text is `retMsg` when present, "Unknown error from API." only when the key is absent, and "None" when it is null |
| `Kline.ListOf` | src/bybit_price_downloader.py:141-143 | A present `result.list` is the page's rows, unchanged; a missing `result`, a missing `list` or a null `list` reads as no rows |
| `Downloader.Classify` | src/bybit_price_downloader.py:128-147 | The checks in order: a 4xx/5xx status fails as an HTTP error; then a non-JSON body fails as a decoding error; then a non-zero `retCode` fails with "API error: " plus the message; then a null `result` fails; otherwise the page is exactly `result.list`. Conversely a page is accepted only if the status is not 4xx/5xx, the body is JSON and `retCode` is 0 |
| `Downloader.GetPricesSpec` | src/bybit_price_downloader.py:107-162 | A request goes out only once both dates have converted, and the first starts at the start date; a failure before any request is the date-format error |
| `Downloader.GetPrices` | src/bybit_price_downloader.py:107-162 | The loop returns the result of `GetPricesSpec`, the pure statement of the fetch that the lemmas below describe, and its ghost log holds exactly that statement's requests, in order |
| `Downloader.InvalidDateSendsNothing` | src/bybit_price_downloader.py:107-108 | An unparseable start or end date fails with the date-format error before any request |
| `Downloader.EmptyWindowSendsNothing` | src/bybit_price_downloader.py:111-114 | With `start >= end` no request is sent and the result is `[]` |
| `Downloader.RequestsFollowSchedule` | src/bybit_price_downloader.py:112-150 | The fetch's requests begin at `start`, are contiguous (each starts at the previous `batch_end`), rise strictly, stay below `end`, ask for between 0 and `limit` candles, pass category, symbol and interval through, and form a prefix of the schedule |
| `Downloader.FetchOutcome` | src/bybit_price_downloader.py:131-162 | Any failing page aborts the fetch with that page's error and no rows; an empty page ends the loop, keeping the rows so far; on success the rows are all pages' rows in order |
| `Downloader.MissingListEndsFetch` | src/bybit_price_downloader.py:141-147 | An accepted response with no `result`, or with a missing or null `list`, ends the loop: that request is the last one sent and the rows collected by earlier batches are returned |
| `Downloader.CompleteFetch` | src/bybit_price_downloader.py:114-150 | If no page is empty or failing, the whole schedule is sent, the counts asked for sum to `(end - start) div spc`, and all rows come back in order |
| `Downloader.OneDayScenario` | tests/test_bybit_price_downloader.py:15-61 | Daily candles over one day with the default limit: exactly one request, for 1 candle from `start`, and the page's rows come back as they are |
| `Downloader.ApiErrorScenario` | tests/test_bybit_price_downloader.py:63-92 | A non-zero `retCode` fails the fetch with "API error: " followed by the API's message |
| `Downloader.ServerErrorScenario` | tests/test_bybit_price_downloader.py:94-116 | A 500 response fails the fetch with an HTTP error, whatever the body |
| `Downloader.EmptyPageScenario` | tests/test_bybit_price_downloader.py:135-164 | An empty first page ends the fetch after one request with `[]` and no error |
| `Downloader.FinalSliverAsksForNothing` | src/bybit_price_downloader.py:117 | A window shorter than one candle is still requested, with limit 0 |
| `LegacyDownloader.IntervalToSeconds` | bybit_price_downloader.py:59-75 | Unknown codes fall back to 86400 s silently; every result is a whole number of minutes, at least 60 |
| `LegacyDownloader.ToUnixTimestamp` | bybit_price_downloader.py:45-46 | Conversion succeeds exactly when the date parses; otherwise strptime's error for that string propagates |
| `LegacyDownloader.ApiMessage` | bybit_price_downloader.py:117 | The error text is `retMsg` when present, and "None" when it is absent or null |
| `LegacyDownloader.Classify` | bybit_price_downloader.py:114-121 | A non-JSON body fails as a decoding error; then a status other than 200 or a non-zero `retCode` fails with "API error: " plus the message; then a null `result` fails; otherwise the page is exactly `result.list`. Conversely a page is accepted only if the body is JSON, the status is exactly 200 and `retCode` is 0 |
| `LegacyDownloader.GetPricesSpec` | bybit_price_downloader.py:91-126 | A request goes out only once both dates have converted, and the first starts at the start date; a failure before any request is strptime's error for one of the two dates |
| `LegacyDownloader.GetPrices` | bybit_price_downloader.py:91-126 | The loop returns the result of `LegacyDownloader.GetPricesSpec`, and its ghost log holds exactly that statement's requests, in order |
| `LegacyDownloader.InvalidDateSendsNothing` | bybit_price_downloader.py:91-92 | An unparseable date fails, naming the start date if that one is bad and the end date otherwise, before any request |
| `LegacyDownloader.EmptyWindowSendsNothing` | bybit_price_downloader.py:95-98 | With `start >= end` no request is sent and the result is `[]` |
| `LegacyDownloader.RequestsFollowSchedule` | bybit_price_downloader.py:96-124 | Requests begin at `start`, each later one starts at the previous `batch_end`, starts rise strictly and stay below `end`, counts lie in [0, `limit`], and the log is a prefix of the schedule |
| `LegacyDownloader.FetchOutcome` | bybit_price_downloader.py:114-126 | A failing response aborts the fetch with no rows; every page before the last was full; on success the rows are all pages' rows in order, unchanged |
| `LegacyDownloader.MissingListEndsFetch` | bybit_price_downloader.py:119-122 | A 200 response with `retCode` 0 and no `result`, or with a missing or null `list`, ends the loop: that request is the last one sent and the rows collected by earlier batches are returned |
| `Variants.IntervalTablesAgree` | bybit_price_downloader.py:59-75 | The two files' interval tables are identical, and so are their looked-up durations |
| `Variants.SamePageAt200` | bybit_price_downloader.py:114-121 | On a 200 response both versions accept the same pages with the same rows |
| `Variants.VariantsAgreeAt200` | bybit_price_downloader.py:91-126 | If the server always answers 200, both versions send the same requests, succeed or fail together, and return the same rows |
| `Variants.WhereVariantsDiffer` | bybit_price_downloader.py:116-117 | Where they part: a 201 is accepted only by the maintained version; a 500 with a non-JSON body is an HTTP error in one and a decoding error in the other; a missing `retMsg` reads "Unknown error from API." in one and "None" in the other |

## Left out

- HTTP and JSON: `requests.get`, the URL, the 10-second timeout and `response.json()` are replaced by the `api` parameter and the decoded `Body`. Redirects, connection errors and timeouts are not modelled. A connection error is a failure before any response exists, and no `Response` value stands for it.
- JSON values outside the modelled shapes are not represented: a `retCode` that is not an integer (Python would compare `0.0` or `False` equal to 0), a `retMsg` that is not a string, a `result` that is neither an object nor `null`, or a `list` that is not a list.
- Exception kinds are merged where the loop treats them alike. A body that is not JSON and a body that is JSON but not an object both become `DecodeError`. The maintained version's `except Exception: raise` re-raises unchanged, so it adds nothing.
- `Kline.InvalidDate` keeps only the fixed message of the maintained version's date error, not the chained strptime error it is raised from, because `parse` reports only that the date did not parse.
- Date conversion: `strptime` and `dt.timestamp()` depend on the host's time zone and the library's parser. They are the opaque `parse` parameter. OverflowError and OSError from `timestamp()` are not modelled.
- Logging: `src/logger.py`, `logging_config.py`, the module-level `setup_logging()` call and the info/error/critical log lines are side effects only. The unknown-interval warning is the `warned` flag of `Downloader.IntervalToSeconds`.
- `save_to_csv` in both files and `main.py`: file output and commented-out usage, with no logic beyond a fixed header row.
- `Downloader.GetPrices`: requires `limit >= 1`, which the source does not check. With `limit <= 0` the batch end is not after the cursor, and the source loops forever while pages keep coming back non-empty.
- `LegacyDownloader.GetPrices`: requires `limit >= 1` for the same reason.
