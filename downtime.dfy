/** downtime.js: for every line, the downtime of its tickets closed in the
    current operational day and the number of tickets created in it, one
    line after the other, the first failing query ending the report. */
module LineDowntime {
  import opened Common
  import opened Clock

  /** A query on table `tickets` for one line: with `closedOnly`, the
      `Closed` tickets' `downtime_minutes` with `resolved_at` in the window;
      otherwise the count of tickets with `created_at` in the window.  The
      window is read as `gte(start)` and `lt(end)`. */
  datatype LineQuery = LineQuery(line: string, closedOnly: bool, window: Range)

  function ClosedQuery(line: string, window: Range): LineQuery
  {
    LineQuery(line, true, window)
  }

  function GeneratedQuery(line: string, window: Range): LineQuery
  {
    LineQuery(line, false, window)
  }

  /** One element of the reply: `{ line, tickets_generated, downtime }`. */
  datatype LineRecord = LineRecord(line: string, ticketsGenerated: nat, downtime: int)

  /** The `reduce` over the closed tickets' downtimes, missing ones as 0. */
  function TotalDowntime(ds: seq<Option<int>>): (t: int)
    ensures (forall i :: 0 <= i < |ds| ==> MinutesOrZero(ds[i]) >= 0) ==> t >= 0
    ensures (forall i :: 0 <= i < |ds| ==> ds[i].None?) ==> t == 0
  {
    if ds == [] then 0
    else TotalDowntime(ds[..|ds| - 1]) + MinutesOrZero(ds[|ds| - 1])
  }

  lemma {:induction false} TotalDowntimeAppend(a: seq<Option<int>>, b: seq<Option<int>>)
    ensures TotalDowntime(a + b) == TotalDowntime(a) + TotalDowntime(b)
  {
    if b == [] {
      assert a + b == a;
    } else {
      assert (a + b)[..|a + b| - 1] == a + b[..|b| - 1];
      TotalDowntimeAppend(a, b[..|b| - 1]);
    }
  }

  /** The report so far: the records pushed, or the error that ended it, and
      every query issued, in order. */
  datatype Progress = Progress(result: DbResult<seq<LineRecord>>, issued: seq<LineQuery>)

  /** Both queries of a line succeed. */
  predicate LineOk(line: string, window: Range,
                   fetchRows: LineQuery -> DbResult<seq<Option<int>>>,
                   fetchCount: LineQuery -> DbResult<nat>)
  {
    fetchRows(ClosedQuery(line, window)).Data? && fetchCount(GeneratedQuery(line, window)).Data?
  }

  /** The record of a line whose queries succeed: the count of its created
      tickets and the summed downtime of its closed ones. */
  function RecordOf(line: string, window: Range,
                    fetchRows: LineQuery -> DbResult<seq<Option<int>>>,
                    fetchCount: LineQuery -> DbResult<nat>): LineRecord
    requires LineOk(line, window, fetchRows, fetchCount)
  {
    LineRecord(line, fetchCount(GeneratedQuery(line, window)).rows,
               TotalDowntime(fetchRows(ClosedQuery(line, window)).rows))
  }

  /** The loop body for one line, appended to a report that has not failed. */
  function Step(p: Progress, line: string, window: Range,
                fetchRows: LineQuery -> DbResult<seq<Option<int>>>,
                fetchCount: LineQuery -> DbResult<nat>): Progress
    requires p.result.Data?
  {
    var closed := ClosedQuery(line, window);
    var generated := GeneratedQuery(line, window);
    match fetchRows(closed)
    case DbError(m) => Progress(DbError(m), p.issued + [closed])
    case Data(ds) =>
      match fetchCount(generated)
      case DbError(m) => Progress(DbError(m), p.issued + [closed, generated])
      case Data(n) =>
        Progress(Data(p.result.rows + [LineRecord(line, n, TotalDowntime(ds))]),
                 p.issued + [closed, generated])
  }

  /** The report over `lines`, line by line: once a query fails, the
      remaining lines are not visited. */
  function Collect(lines: seq<string>, window: Range,
                   fetchRows: LineQuery -> DbResult<seq<Option<int>>>,
                   fetchCount: LineQuery -> DbResult<nat>): Progress
  {
    if lines == [] then Progress(Data([]), [])
    else
      var p := Collect(lines[..|lines| - 1], window, fetchRows, fetchCount);
      if p.result.DbError? then p
      else Step(p, lines[|lines| - 1], window, fetchRows, fetchCount)
  }

  /** The handler (downtime.js:9-60) with every query's outcome given: the
      lines query failing gives 500 before any per-line query; otherwise the
      lines are visited in order and the records or the first error sent. */
  method Handle(now: Instant, linesResult: DbResult<seq<string>>,
                fetchRows: LineQuery -> DbResult<seq<Option<int>>>,
                fetchCount: LineQuery -> DbResult<nat>)
    returns (reply: Reply<seq<LineRecord>>, issued: seq<LineQuery>)
    ensures linesResult.DbError? ==> reply == Reply(500, Error(linesResult.message)) && issued == []
    ensures linesResult.Data? ==>
      var p := Collect(linesResult.rows, DailyTimeRange(now), fetchRows, fetchCount);
      && issued == p.issued
      && (p.result.Data? ==> reply == Reply(200, Json(p.result.rows)))
      && (p.result.DbError? ==> reply == Reply(500, Error(p.result.message)))
  {
    var window := DailyTimeRange(now);
    if linesResult.DbError? {
      return Reply(500, Error(linesResult.message)), [];
    }
    var lines := linesResult.rows;
    var records: seq<LineRecord> := [];
    issued := [];
    for i := 0 to |lines|
      invariant Collect(lines[..i], window, fetchRows, fetchCount) == Progress(Data(records), issued)
    {
      assert lines[..i + 1][..i] == lines[..i];
      var closed := ClosedQuery(lines[i], window);
      issued := issued + [closed];
      var downtimeResult := fetchRows(closed);
      if downtimeResult.DbError? {
        FailureSticks(lines, i + 1, window, fetchRows, fetchCount);
        return Reply(500, Error(downtimeResult.message)), issued;
      }
      var totalDowntime := TotalDowntime(downtimeResult.rows);
      var generated := GeneratedQuery(lines[i], window);
      issued := issued + [generated];
      var ticketsGenerated := fetchCount(generated);
      if ticketsGenerated.DbError? {
        FailureSticks(lines, i + 1, window, fetchRows, fetchCount);
        return Reply(500, Error(ticketsGenerated.message)), issued;
      }
      records := records + [LineRecord(lines[i], ticketsGenerated.rows, totalDowntime)];
    }
    assert lines[..|lines|] == lines;
    reply := Reply(200, Json(records));
  }

  /** Once the report over a prefix has failed, it stays failed, unchanged. */
  lemma {:induction false} FailureSticks(lines: seq<string>, n: nat, window: Range,
                                         fetchRows: LineQuery -> DbResult<seq<Option<int>>>,
                                         fetchCount: LineQuery -> DbResult<nat>)
    requires n <= |lines|
    requires Collect(lines[..n], window, fetchRows, fetchCount).result.DbError?
    ensures Collect(lines, window, fetchRows, fetchCount) == Collect(lines[..n], window, fetchRows, fetchCount)
  {
    if n < |lines| {
      var init := lines[..|lines| - 1];
      assert init[..n] == lines[..n];
      FailureSticks(init, n, window, fetchRows, fetchCount);
    } else {
      assert lines[..n] == lines;
    }
  }

  /** When every line's queries succeed, the report holds one record per
      line, in the order of `lines`, each with that line's ticket count and
      summed downtime, and two queries were issued per line: the closed
      tickets' downtime first, then the created tickets' count. */
  lemma {:induction false} AllLinesReported(lines: seq<string>, window: Range,
                                            fetchRows: LineQuery -> DbResult<seq<Option<int>>>,
                                            fetchCount: LineQuery -> DbResult<nat>)
    requires forall i :: 0 <= i < |lines| ==> LineOk(lines[i], window, fetchRows, fetchCount)
    ensures var p := Collect(lines, window, fetchRows, fetchCount);
      && p.result.Data?
      && |p.result.rows| == |lines|
      && (forall i :: 0 <= i < |lines| ==>
            p.result.rows[i] == RecordOf(lines[i], window, fetchRows, fetchCount))
      && |p.issued| == 2 * |lines|
      && (forall i :: 0 <= i < |lines| ==>
            p.issued[2 * i] == ClosedQuery(lines[i], window) &&
            p.issued[2 * i + 1] == GeneratedQuery(lines[i], window))
  {
    if lines != [] {
      var init := lines[..|lines| - 1];
      AllLinesReported(init, window, fetchRows, fetchCount);
      var p := Collect(init, window, fetchRows, fetchCount);
      var q := Collect(lines, window, fetchRows, fetchCount);
      assert LineOk(lines[|lines| - 1], window, fetchRows, fetchCount);
      forall i | 0 <= i < |lines|
        ensures q.issued[2 * i] == ClosedQuery(lines[i], window)
        ensures q.issued[2 * i + 1] == GeneratedQuery(lines[i], window)
      {
        if i < |init| {
          assert q.issued[2 * i] == p.issued[2 * i];
          assert q.issued[2 * i + 1] == p.issued[2 * i + 1];
        }
      }
    }
  }

  /** A report fails exactly when some line's query fails; it then carries
      the error of the first failing query of the first failing line, no
      record of the lines before it is sent, and no query is issued after
      the failing one. */
  lemma {:induction false} FirstFailureReported(lines: seq<string>, k: nat, window: Range,
                                                fetchRows: LineQuery -> DbResult<seq<Option<int>>>,
                                                fetchCount: LineQuery -> DbResult<nat>)
    requires k < |lines| && !LineOk(lines[k], window, fetchRows, fetchCount)
    requires forall i :: 0 <= i < k ==> LineOk(lines[i], window, fetchRows, fetchCount)
    ensures var p := Collect(lines, window, fetchRows, fetchCount);
      var closed := fetchRows(ClosedQuery(lines[k], window));
      && p.result.DbError?
      && (closed.DbError? ==>
            p.result.message == closed.message && |p.issued| == 2 * k + 1)
      && (closed.Data? ==>
            p.result.message == fetchCount(GeneratedQuery(lines[k], window)).message &&
            |p.issued| == 2 * k + 2)
  {
    var pre := lines[..k];
    assert forall i :: 0 <= i < |pre| ==> pre[i] == lines[i];
    AllLinesReported(pre, window, fetchRows, fetchCount);
    assert lines[..k + 1][..k] == pre;
    FailureSticks(lines, k + 1, window, fetchRows, fetchCount);
  }
}
