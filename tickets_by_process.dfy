/** tickets-by-process.js: the tickets of one line created in a date range,
    counted per process and ranked, largest count first. */
module TicketsByProcess {
  import opened Common
  import opened Clock
  import opened Aggregation
  import opened ProcessReport

  /** One row of `select('process')`. */
  datatype Row = Row(process: Option<string>)

  /** Each row adds 1 to the bucket of its normalised process. */
  function Items(rows: seq<Row>): (items: seq<Item>)
    ensures |items| == |rows|
    ensures forall j :: 0 <= j < |rows| ==> items[j] == Item(ProcessKey(rows[j].process), 1)
  {
    seq(|rows|, j requires 0 <= j < |rows| => Item(ProcessKey(rows[j].process), 1))
  }

  /** The handler (tickets-by-process.js:9-55) with the query's outcome
      given: a missing or empty `line` is refused with 400 before any query
      is built; a query error gives 500 with its message; otherwise the
      ranked per-process counts are sent with 200. */
  function Handle(line: Option<string>, from: Option<Instant>, to: Option<Instant>,
                  fetched: DbResult<seq<Row>>): (o: Outcome<seq<Entry>>)
    ensures o.query.Some? <==> Truthy(line)
    ensures o.reply.status == 400 <==> !Truthy(line)
    ensures o.reply.status == 500 <==> Truthy(line) && fetched.DbError?
    ensures o.reply.status == 200 <==> Truthy(line) && fetched.Data?
    ensures o.query.Some? ==>
              o.query.value == BuildQuery(line.value, false, "created_at", from, to)
    ensures o.reply.status == 200 ==> o.reply.body == Json(Ranked(Items(fetched.rows)))
    ensures o.reply.status == 500 ==> o.reply.body == Error(fetched.message)
  {
    if !Truthy(line) then
      Outcome(Reply(400, Error(LineRequired)), None)
    else
      var query := BuildQuery(line.value, false, "created_at", from, to);
      match fetched
      case DbError(message) => Outcome(Reply(500, Error(message)), Some(query))
      case Data(rows) => Outcome(Reply(200, Json(Ranked(Items(rows)))), Some(query))
  }

  /** The number of rows whose normalised process is `k`. */
  function CountOf(rows: seq<Row>, k: string): nat
  {
    if rows == [] then 0
    else (if ProcessKey(rows[0].process) == k then 1 else 0) + CountOf(rows[1..], k)
  }

  lemma {:induction false} CountOfSnoc(rows: seq<Row>, r: Row, k: string)
    ensures CountOf(rows + [r], k) == CountOf(rows, k) + (if ProcessKey(r.process) == k then 1 else 0)
  {
    if rows != [] {
      assert (rows + [r])[1..] == rows[1..] + [r];
      CountOfSnoc(rows[1..], r, k);
    }
  }

  /** The counter's entry for a process is that process's row count. */
  lemma {:induction false} SumForIsCountOf(rows: seq<Row>, k: string)
    ensures SumFor(Items(rows), k) == CountOf(rows, k)
  {
    if rows != [] {
      var p := rows[..|rows| - 1];
      assert Items(rows)[..|rows| - 1] == Items(p);
      SumForIsCountOf(p, k);
      CountOfSnoc(p, rows[|rows| - 1], k);
      assert p + [rows[|rows| - 1]] == rows;
    }
  }

  /** What the sent list holds (tickets-by-process.js:37-48): one entry per
      distinct normalised process, each with that process's row count (at
      least 1), the counts adding up to the number of rows, ranked largest
      first with ties in first-seen order, and nothing for no rows. */
  lemma ReportContents(rows: seq<Row>)
    ensures var r := Ranked(Items(rows));
      && DistinctKeys(r)
      && (forall j :: 0 <= j < |rows| ==> ProcessKey(rows[j].process) in KeySet(r))
      && (forall k :: k in KeySet(r) ==> exists j :: 0 <= j < |rows| && ProcessKey(rows[j].process) == k)
      && (forall e :: e in r ==> e.total == CountOf(rows, e.key) && e.total >= 1)
      && SumTotals(r) == |rows|
      && SortedByTotal(r)
      && (forall v :: WithTotal(r, v) == WithTotal(Group(Items(rows)), v))
      && (rows == [] ==> r == [])
  {
    var items := Items(rows);
    RankedReport(items);
    TotalOfOnes(items);
    forall e | e in Ranked(items) ensures e.total == CountOf(rows, e.key) && e.total >= 1 {
      SumForIsCountOf(rows, e.key);
      SumForPositive(items, e.key);
    }
    forall j | 0 <= j < |rows| ensures ProcessKey(rows[j].process) in KeySet(Ranked(items)) {
      assert items[j].key == ProcessKey(rows[j].process);
    }
    forall k | k in KeySet(Ranked(items))
      ensures exists j :: 0 <= j < |rows| && ProcessKey(rows[j].process) == k
    {
      var j :| 0 <= j < |items| && items[j].key == k;
      assert ProcessKey(rows[j].process) == k;
    }
  }
}
