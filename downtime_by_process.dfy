/** downtime-by-process.js: the downtime of the closed tickets of one line,
    summed per process and ranked, largest first. */
module DowntimeByProcess {
  import opened Common
  import opened Clock
  import opened Aggregation
  import opened ProcessReport

  /** One row of `select('process, downtime_minutes')`. */
  datatype Row = Row(process: Option<string>, downtimeMinutes: Option<int>)

  /** Each row as the reduce sees it: its normalised process and its
      downtime, 0 when missing. */
  function Items(rows: seq<Row>): (items: seq<Item>)
    ensures |items| == |rows|
    ensures forall j :: 0 <= j < |rows| ==>
              items[j] == Item(ProcessKey(rows[j].process), MinutesOrZero(rows[j].downtimeMinutes))
  {
    seq(|rows|, j requires 0 <= j < |rows| =>
          Item(ProcessKey(rows[j].process), MinutesOrZero(rows[j].downtimeMinutes)))
  }

  /** The total downtime of all rows, missing values counted as 0. */
  function TotalMinutes(rows: seq<Row>): int
  {
    if rows == [] then 0
    else TotalMinutes(rows[..|rows| - 1]) + MinutesOrZero(rows[|rows| - 1].downtimeMinutes)
  }

  lemma {:induction false} TotalMinutesIsTotal(rows: seq<Row>)
    ensures Total(Items(rows)) == TotalMinutes(rows)
  {
    if rows != [] {
      assert Items(rows)[..|rows| - 1] == Items(rows[..|rows| - 1]);
      TotalMinutesIsTotal(rows[..|rows| - 1]);
    }
  }

  /** The handler (downtime-by-process.js:9-56) with the query's outcome
      given: a missing or empty `line` is refused with 400 before any query
      is built; a query error gives 500 with its message; otherwise the
      ranked per-process totals are sent with 200. */
  function Handle(line: Option<string>, from: Option<Instant>, to: Option<Instant>,
                  fetched: DbResult<seq<Row>>): (o: Outcome<seq<Entry>>)
    ensures o.query.Some? <==> Truthy(line)
    ensures o.reply.status == 400 <==> !Truthy(line)
    ensures o.reply.status == 500 <==> Truthy(line) && fetched.DbError?
    ensures o.reply.status == 200 <==> Truthy(line) && fetched.Data?
    ensures o.query.Some? ==>
              o.query.value == BuildQuery(line.value, true, "resolved_at", from, to)
    ensures o.reply.status == 200 ==> o.reply.body == Json(Ranked(Items(fetched.rows)))
    ensures o.reply.status == 500 ==> o.reply.body == Error(fetched.message)
  {
    if !Truthy(line) then
      Outcome(Reply(400, Error(LineRequired)), None)
    else
      var query := BuildQuery(line.value, true, "resolved_at", from, to);
      match fetched
      case DbError(message) => Outcome(Reply(500, Error(message)), Some(query))
      case Data(rows) => Outcome(Reply(200, Json(Ranked(Items(rows)))), Some(query))
  }

  /** What the sent list holds (downtime-by-process.js:38-49): one entry per
      distinct normalised process, each with the summed downtime of that
      process's rows, the totals adding up to the downtime of all rows,
      ranked largest first with ties in first-seen order, and nothing for
      no rows. */
  lemma ReportContents(rows: seq<Row>)
    ensures var r := Ranked(Items(rows));
      && DistinctKeys(r)
      && (forall j :: 0 <= j < |rows| ==> ProcessKey(rows[j].process) in KeySet(r))
      && (forall k :: k in KeySet(r) ==> exists j :: 0 <= j < |rows| && ProcessKey(rows[j].process) == k)
      && (forall e :: e in r ==> e.total == DowntimeOf(rows, e.key))
      && SumTotals(r) == TotalMinutes(rows)
      && SortedByTotal(r)
      && (forall v :: WithTotal(r, v) == WithTotal(Group(Items(rows)), v))
      && (rows == [] ==> r == [])
  {
    var items := Items(rows);
    RankedReport(items);
    TotalMinutesIsTotal(rows);
    forall e | e in Ranked(items) ensures e.total == DowntimeOf(rows, e.key) {
      SumForIsDowntimeOf(rows, e.key);
    }
    forall j | 0 <= j < |rows| ensures ProcessKey(rows[j].process) in KeySet(Ranked(items)) {
      assert items[j].key == ProcessKey(rows[j].process);
    }
    forall k | k in KeySet(Ranked(items))
      ensures exists j :: 0 <= j < |rows| && ProcessKey(rows[j].process) == k
    {
      var j :| 0 <= j < |items| && items[j].key == k;
      assert ProcessKey(rows[j].process) == k;
    }
  }

  /** The downtime recorded against process `k`: the sum, over the rows
      whose normalised process is `k`, of their downtime (0 when missing). */
  function DowntimeOf(rows: seq<Row>, k: string): int
  {
    if rows == [] then 0
    else (if ProcessKey(rows[0].process) == k then MinutesOrZero(rows[0].downtimeMinutes) else 0)
         + DowntimeOf(rows[1..], k)
  }

  lemma {:induction false} DowntimeOfSnoc(rows: seq<Row>, r: Row, k: string)
    ensures DowntimeOf(rows + [r], k) ==
              DowntimeOf(rows, k) + (if ProcessKey(r.process) == k then MinutesOrZero(r.downtimeMinutes) else 0)
  {
    if rows != [] {
      assert (rows + [r])[1..] == rows[1..] + [r];
      DowntimeOfSnoc(rows[1..], r, k);
    }
  }

  /** The dictionary's entry for a process is that process's downtime. */
  lemma {:induction false} SumForIsDowntimeOf(rows: seq<Row>, k: string)
    ensures SumFor(Items(rows), k) == DowntimeOf(rows, k)
  {
    if rows != [] {
      var p := rows[..|rows| - 1];
      assert Items(rows)[..|rows| - 1] == Items(p);
      SumForIsDowntimeOf(p, k);
      DowntimeOfSnoc(p, rows[|rows| - 1], k);
      assert p + [rows[|rows| - 1]] == rows;
    }
  }
}
