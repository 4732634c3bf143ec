/** How the two versions of `get_prices` relate: the same table and the same
    loop, so on a server that always answers 200 they send the same requests and
    return the same rows; they part only in which failures they report, and how. */
module Variants {
  import opened Kline
  import Pagination
  import Downloader
  import LegacyDownloader

  /** Both files carry the same interval table and the same fallback. */
  lemma IntervalTablesAgree(interval: string)
    ensures Downloader.Conversion == LegacyDownloader.Conversion
    ensures LegacyDownloader.IntervalToSeconds(interval) == Downloader.IntervalToSeconds(interval).seconds
  {
  }

  /** On a 200 response both versions accept the same pages with the same rows. */
  lemma SamePageAt200(resp: Response)
    requires resp.status == 200
    ensures Pagination.SamePage(Downloader.Classify(resp), LegacyDownloader.Classify(resp))
  {
  }

  /** Against a server that answers every request with status 200, both versions
      send the same requests, succeed or fail together, and return the same rows. */
  lemma VariantsAgreeAt200(conn: Connector, parse: string -> Option<int>, api: Request -> Response, limit: int)
    requires limit >= 1
    requires forall r :: api(r).status == 200
    ensures var a := Downloader.GetPricesSpec(conn, parse, api, limit);
      var b := LegacyDownloader.GetPricesSpec(conn, parse, api, limit);
      && a.requests == b.requests
      && a.outcome.Success? == b.outcome.Success?
      && (a.outcome.Success? ==> a.outcome.value == b.outcome.value)
  {
    if parse(conn.start).Some? && parse(conn.end).Some? {
      var startTs, endTs := parse(conn.start).value, parse(conn.end).value;
      var spc := Downloader.IntervalToSeconds(conn.interval).seconds;
      IntervalTablesAgree(conn.interval);
      forall r | r in Pagination.Plan(conn, startTs, endTs, spc, limit)
        ensures Pagination.SamePage(Downloader.Classify(api(r)), LegacyDownloader.Classify(api(r)))
      {
        SamePageAt200(api(r));
      }
      Pagination.RunsAgree(conn, startTs, endTs, spc, limit, api, Downloader.Classify, LegacyDownloader.Classify);
    }
  }

  /** Where they part: a 2xx status other than 200 is accepted only by the
      maintained version; a server error with a non-JSON body is an HTTP error
      there and a decoding error in the older file; and a missing `retMsg` reads
      "Unknown error from API." in one and "None" in the other. */
  lemma WhereVariantsDiffer(rows: seq<Row>, code: int)
    requires code != 0
    ensures Downloader.Classify(Response(201, Some(Body(Value(0), Value("OK"), Value(Value(rows)))))) == Page(rows)
    ensures LegacyDownloader.Classify(Response(201, Some(Body(Value(0), Value("OK"), Value(Value(rows))))))
            == Abort(ApiError("API error: OK"))
    ensures Downloader.Classify(Response(500, None)) == Abort(HttpError(500))
    ensures LegacyDownloader.Classify(Response(500, None)) == Abort(DecodeError)
    ensures Downloader.Classify(Response(200, Some(Body(Value(code), Missing, Missing))))
            == Abort(ApiError("API error: Unknown error from API."))
    ensures LegacyDownloader.Classify(Response(200, Some(Body(Value(code), Missing, Missing))))
            == Abort(ApiError("API error: None"))
  {
    assert "API error: " + "OK" == "API error: OK";
    assert "API error: " + "None" == "API error: None";
    assert "API error: " + "Unknown error from API." == "API error: Unknown error from API.";
  }
}
