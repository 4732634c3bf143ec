/** The batching arithmetic of `BybitConnector.get_prices`, common to both versions:
    how the window [start, end) is cut into requests, and the pure specification of
    the loop that issues them. The loop's only difference between the versions is
    how a response is judged, so that judgement (`classify`) is a parameter. */
module Pagination {
  import opened Kline

  /** `min(cursor + limit * spc, end)`: a batch ends at the row cap or at the end
      of the window, whichever comes first. */
  function BatchEnd(cursor: int, end: int, spc: int, limit: int): (batchEnd: int)
    ensures batchEnd <= end
    ensures batchEnd <= cursor + limit * spc
    ensures batchEnd == end || batchEnd == cursor + limit * spc
    ensures cursor < end && limit >= 1 && spc >= 1 ==> cursor < batchEnd
  {
    var maxBatchEnd := cursor + limit * spc;
    if maxBatchEnd < end then maxBatchEnd else end
  }

  /** `(batchEnd - cursor) // spc`: the number of whole candles in the batch.
      Python's floor division agrees with Dafny's `/` for a positive divisor. */
  function CandlesLimit(cursor: int, batchEnd: int, spc: int): (n: int)
    requires spc >= 1
    ensures cursor <= batchEnd ==> 0 <= n && n * spc <= batchEnd - cursor < (n + 1) * spc
  {
    (batchEnd - cursor) / spc
  }

  /** The request the loop sends for the batch starting at `cursor`: the
      connector's query fields, the cursor as `start`, and the whole candles up to
      the batch end as `limit`. */
  function BatchRequest(conn: Connector, cursor: int, end: int, spc: int, limit: int): (r: Request)
    requires spc >= 1
    ensures r.category == conn.category && r.symbol == conn.symbol && r.interval == conn.interval
    ensures r.start == cursor
    ensures r.limit == CandlesLimit(cursor, BatchEnd(cursor, end, spc, limit), spc)
    ensures cursor < end && limit >= 0 ==> 0 <= r.limit <= limit
  {
    Request(conn.category, conn.symbol, conn.interval, cursor,
            CandlesLimit(cursor, BatchEnd(cursor, end, spc, limit), spc))
  }

  /** The request carries the connector's category, symbol and interval untouched. */
  predicate SameQuery(conn: Connector, r: Request) {
    r.category == conn.category && r.symbol == conn.symbol && r.interval == conn.interval
  }

  /** Every request the loop would send if no page ended it early. */
  function Plan(conn: Connector, cursor: int, end: int, spc: int, limit: int): seq<Request>
    requires spc >= 1 && limit >= 1
    decreases end - cursor
  {
    if cursor >= end then []
    else [BatchRequest(conn, cursor, end, spc, limit)] + Plan(conn, BatchEnd(cursor, end, spc, limit), end, spc, limit)
  }

  /** Sum of the `limit` parameters of a sequence of requests. */
  function RequestedCount(reqs: seq<Request>): int {
    if reqs == [] then 0 else reqs[0].limit + RequestedCount(reqs[1..])
  }

  /** The requests a fetch issued, and what it ended in. */
  datatype Run = Run(requests: seq<Request>, outcome: Result<seq<Row>, Error>)

  /** A run preceded by requests already sent and rows already collected; a failure
      discards the collected rows. */
  function Prepend(reqs: seq<Request>, rows: seq<Row>, run: Run): Run {
    Run(reqs + run.requests,
        if run.outcome.Success? then Success(rows + run.outcome.value) else run.outcome)
  }

  lemma PrependNothing(run: Run)
    ensures Prepend([], [], run) == run
  {
    assert [] + run.requests == run.requests;
    if run.outcome.Success? {
      assert [] + run.outcome.value == run.outcome.value;
    }
  }

  /** Prepending in two steps is prepending once: what the loop does to its
      accumulators between two iterations. */
  lemma PrependTwice(reqs: seq<Request>, rows: seq<Row>, req: Request, page: seq<Row>, rest: Run)
    ensures Prepend(reqs, rows, Prepend([req], page, rest)) == Prepend(reqs + [req], rows + page, rest)
  {
    assert reqs + ([req] + rest.requests) == (reqs + [req]) + rest.requests;
    if rest.outcome.Success? {
      assert rows + (page + rest.outcome.value) == (rows + page) + rest.outcome.value;
    }
  }

  /** The `while batch_start < end_timestamp` loop from `cursor` on, as a function:
      send the batch request, abort on a failing response, stop on an empty page,
      otherwise keep the rows and continue from the batch's end. */
  function RunFrom(conn: Connector, cursor: int, end: int, spc: int, limit: int,
                   api: Request -> Response, classify: Response -> Step): (run: Run)
    requires spc >= 1 && limit >= 1
    ensures run.requests == [] <==> cursor >= end
    ensures run.requests == [] ==> run.outcome == Success([])
    ensures run.requests != [] ==> run.requests[0] == BatchRequest(conn, cursor, end, spc, limit)
    decreases end - cursor
  {
    if cursor >= end then Run([], Success([]))
    else
      var req := BatchRequest(conn, cursor, end, spc, limit);
      match classify(api(req))
      case Abort(e) => Run([req], Failure(e))
      case Page(rows) =>
        if rows == [] then Run([req], Success([]))
        else Prepend([req], rows, RunFrom(conn, BatchEnd(cursor, end, spc, limit), end, spc, limit, api, classify))
  }

  /** A page that lets the loop go on: accepted and not empty. */
  predicate FullPage(s: Step) {
    s.Page? && s.rows != []
  }

  /** The rows a step contributes. */
  function PageRows(s: Step): seq<Row> {
    if s.Page? then s.rows else []
  }

  /** The rows of the responses to `reqs`, concatenated in request order. */
  function Collected(reqs: seq<Request>, api: Request -> Response, classify: Response -> Step): seq<Row> {
    if reqs == [] then [] else PageRows(classify(api(reqs[0]))) + Collected(reqs[1..], api, classify)
  }

  /** Two judgements of one response agree on whether it is a page and on its rows. */
  predicate SamePage(s: Step, t: Step) {
    s.Page? == t.Page? && (s.Page? ==> s.rows == t.rows)
  }

  // ---------------------------------------------------------------------------
  // Arithmetic

  lemma ZeroFromBound(t: int, d: int)
    requires d >= 1 && -d < t * d < d
    ensures t == 0
  {
  }

  lemma DivShift(x: int, k: int, d: int)
    requires d >= 1
    ensures (x + k * d) / d == x / d + k
  {
    var q, r := x / d, x % d;
    var y := x + k * d;
    assert y == (q + k) * d + r;
    var t := y / d - (q + k);
    assert t * d == r - y % d;
    ZeroFromBound(t, d);
  }

  /** Each batch asks for at least zero and at most `limit` candles. */
  lemma CountWithinLimit(cursor: int, end: int, spc: int, limit: int)
    requires spc >= 1 && limit >= 1 && cursor < end
    ensures 0 <= CandlesLimit(cursor, BatchEnd(cursor, end, spc, limit), spc) <= limit
  {
  }

  // ---------------------------------------------------------------------------
  // The schedule

  /** The schedule tiles the window: it is empty exactly when the window is, starts
      at the cursor, each request starts where the previous batch ended, starts rise
      strictly and stay inside the window, each count lies in [0, limit], and the
      last batch ends at `end`. */
  lemma {:induction false} PlanShape(conn: Connector, cursor: int, end: int, spc: int, limit: int)
    requires spc >= 1 && limit >= 1
    ensures var p := Plan(conn, cursor, end, spc, limit);
      && (|p| > 0 <==> cursor < end)
      && (|p| > 0 ==> p[0].start == cursor && BatchEnd(p[|p| - 1].start, end, spc, limit) == end)
      && (forall i | 0 <= i < |p| ::
            cursor <= p[i].start < end && 0 <= p[i].limit <= limit && SameQuery(conn, p[i])
            && p[i].limit == CandlesLimit(p[i].start, BatchEnd(p[i].start, end, spc, limit), spc))
      && (forall i | 0 <= i < |p| - 1 :: p[i + 1].start == BatchEnd(p[i].start, end, spc, limit))
      && (forall i, j | 0 <= i < j < |p| :: p[i].start < p[j].start)
    decreases end - cursor
  {
    if cursor < end {
      var be := BatchEnd(cursor, end, spc, limit);
      PlanShape(conn, be, end, spc, limit);
      CountWithinLimit(cursor, end, spc, limit);
      var p := Plan(conn, cursor, end, spc, limit);
      var q := Plan(conn, be, end, spc, limit);
      assert p == [BatchRequest(conn, cursor, end, spc, limit)] + q;
      forall i | 0 < i < |p|
        ensures p[i] == q[i - 1]
      {
      }
      if |q| > 0 {
        assert p[1].start == be;
      }
    }
  }

  /** When the whole schedule runs, the counts asked for add up to the number of
      whole candles in the window: every full batch spans exactly `limit * spc`. */
  lemma {:induction false} PlanCount(conn: Connector, cursor: int, end: int, spc: int, limit: int)
    requires spc >= 1 && limit >= 1 && cursor <= end
    ensures RequestedCount(Plan(conn, cursor, end, spc, limit)) == (end - cursor) / spc
    decreases end - cursor
  {
    if cursor < end {
      var be := BatchEnd(cursor, end, spc, limit);
      var p := Plan(conn, cursor, end, spc, limit);
      var q := Plan(conn, be, end, spc, limit);
      assert p[1..] == q;
      PlanCount(conn, be, end, spc, limit);
      if be < end {
        assert be == cursor + limit * spc;
        DivShift(0, limit, spc);
        DivShift(end - be, limit, spc);
        assert end - cursor == (end - be) + limit * spc;
      }
    }
  }

  // ---------------------------------------------------------------------------
  // The loop

  /** The loop sends a prefix of the schedule: nothing when the window is empty,
      and it stops short of the schedule only after a page that was not a full one. */
  lemma {:induction false} RunFollowsPlan(conn: Connector, cursor: int, end: int, spc: int, limit: int,
                                          api: Request -> Response, classify: Response -> Step)
    requires spc >= 1 && limit >= 1
    ensures var reqs := RunFrom(conn, cursor, end, spc, limit, api, classify).requests;
      var p := Plan(conn, cursor, end, spc, limit);
      && reqs <= p
      && (|reqs| > 0 <==> cursor < end)
      && (|reqs| < |p| ==> |reqs| > 0 && !FullPage(classify(api(reqs[|reqs| - 1]))))
    decreases end - cursor
  {
    if cursor < end {
      var req := BatchRequest(conn, cursor, end, spc, limit);
      var be := BatchEnd(cursor, end, spc, limit);
      var step := classify(api(req));
      if FullPage(step) {
        RunFollowsPlan(conn, be, end, spc, limit, api, classify);
        var rest := RunFrom(conn, be, end, spc, limit, api, classify).requests;
        var reqs := RunFrom(conn, cursor, end, spc, limit, api, classify).requests;
        assert reqs == [req] + rest;
        if |rest| > 0 {
          assert reqs[|reqs| - 1] == rest[|rest| - 1];
        }
      }
    }
  }

  /** What a run ends in: every request but the last got a full page; the run fails
      exactly when the last response was judged a failure, with that failure; and
      a successful run returns the rows of all its pages, in order, unchanged. */
  lemma {:induction false} RunOutcome(conn: Connector, cursor: int, end: int, spc: int, limit: int,
                                      api: Request -> Response, classify: Response -> Step)
    requires spc >= 1 && limit >= 1
    ensures var run := RunFrom(conn, cursor, end, spc, limit, api, classify);
      var n := |run.requests|;
      && (forall i | 0 <= i < n - 1 :: FullPage(classify(api(run.requests[i]))))
      && (run.outcome.Failure? <==> n > 0 && classify(api(run.requests[n - 1])).Abort?)
      && (run.outcome.Failure? ==> run.outcome.error == classify(api(run.requests[n - 1])).err)
      && (run.outcome.Success? ==> run.outcome.value == Collected(run.requests, api, classify))
    decreases end - cursor
  {
    if cursor < end {
      var req := BatchRequest(conn, cursor, end, spc, limit);
      var be := BatchEnd(cursor, end, spc, limit);
      var step := classify(api(req));
      var run := RunFrom(conn, cursor, end, spc, limit, api, classify);
      if FullPage(step) {
        RunOutcome(conn, be, end, spc, limit, api, classify);
        var rest := RunFrom(conn, be, end, spc, limit, api, classify);
        assert run.requests == [req] + rest.requests;
        assert run.requests[1..] == rest.requests;
        forall i | 0 < i < |run.requests| ensures run.requests[i] == rest.requests[i - 1] { }
        if |rest.requests| > 0 {
          assert run.requests[|run.requests| - 1] == rest.requests[|rest.requests| - 1];
        }
      } else {
        assert run.requests == [req];
        assert run.requests[1..] == [];
      }
    }
  }

  /** When every scheduled request gets a full page, the loop sends the whole
      schedule and returns every page's rows in order. */
  lemma {:induction false} RunComplete(conn: Connector, cursor: int, end: int, spc: int, limit: int,
                                       api: Request -> Response, classify: Response -> Step)
    requires spc >= 1 && limit >= 1
    requires forall r | r in Plan(conn, cursor, end, spc, limit) :: FullPage(classify(api(r)))
    ensures var p := Plan(conn, cursor, end, spc, limit);
      RunFrom(conn, cursor, end, spc, limit, api, classify) == Run(p, Success(Collected(p, api, classify)))
    decreases end - cursor
  {
    if cursor < end {
      var be := BatchEnd(cursor, end, spc, limit);
      var p := Plan(conn, cursor, end, spc, limit);
      var q := Plan(conn, be, end, spc, limit);
      assert p[0] in p;
      assert p[1..] == q;
      forall r | r in q ensures FullPage(classify(api(r))) {
        assert r in p;
      }
      RunComplete(conn, be, end, spc, limit, api, classify);
    }
  }

  /** Two judgements that agree on every scheduled response give runs with the same
      requests, the same success or failure, and the same rows on success. */
  lemma {:induction false} RunsAgree(conn: Connector, cursor: int, end: int, spc: int, limit: int,
                                     api: Request -> Response, classifyA: Response -> Step, classifyB: Response -> Step)
    requires spc >= 1 && limit >= 1
    requires forall r | r in Plan(conn, cursor, end, spc, limit) :: SamePage(classifyA(api(r)), classifyB(api(r)))
    ensures var a := RunFrom(conn, cursor, end, spc, limit, api, classifyA);
      var b := RunFrom(conn, cursor, end, spc, limit, api, classifyB);
      && a.requests == b.requests
      && a.outcome.Success? == b.outcome.Success?
      && (a.outcome.Success? ==> a.outcome.value == b.outcome.value)
    decreases end - cursor
  {
    if cursor < end {
      var be := BatchEnd(cursor, end, spc, limit);
      var p := Plan(conn, cursor, end, spc, limit);
      var q := Plan(conn, be, end, spc, limit);
      assert p[0] in p;
      assert p[1..] == q;
      forall r | r in q ensures SamePage(classifyA(api(r)), classifyB(api(r))) {
        assert r in p;
      }
      RunsAgree(conn, be, end, spc, limit, api, classifyA, classifyB);
    }
  }
}
