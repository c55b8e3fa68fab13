/** What downtime-by-process.js and tickets-by-process.js share: the
    `'Unknown Process'` fallback for the grouping key, and the shape of the
    one query each handler builds after its `line` guard. */
module ProcessReport {
  import opened Common
  import opened Clock

  const UnknownProcess: string := "Unknown Process"

  /** `curr.process || 'Unknown Process'`: a missing or empty process name
      falls back to the sentinel; any other name is kept as it is. */
  function ProcessKey(process: Option<string>): (k: string)
    ensures k != ""
    ensures !Truthy(process) ==> k == UnknownProcess
    ensures Truthy(process) ==> k == process.value
  {
    if Truthy(process) then process.value else UnknownProcess
  }

  /** A key of the sentinel comes from a row without a process name, or from
      a row whose process is literally named "Unknown Process": the two
      land in the same bucket. */
  lemma UnknownProcessBucket(process: Option<string>)
    ensures ProcessKey(process) == UnknownProcess <==>
              !Truthy(process) || process.value == UnknownProcess
  {
  }

  /** The supabase query a report handler issues: rows of table `tickets`
      with `line` equal to the given line, optionally only `Closed` ones,
      and `column >= gte` and `column < lt` when those bounds are given. */
  datatype Query = Query(line: string, closedOnly: bool, column: string,
                         gte: Option<Instant>, lt: Option<Instant>)

  /** The `from` / `to` query parameters, already parsed as local instants
      (None when absent or empty), turned into the bounds of the query. */
  function BuildQuery(line: string, closedOnly: bool, column: string,
                      from: Option<Instant>, to: Option<Instant>): (q: Query)
    ensures q.line == line && q.closedOnly == closedOnly && q.column == column
    ensures q.gte.Some? <==> from.Some?
    ensures q.lt.Some? <==> to.Some?
    ensures from.Some? ==> TimeOfDay(q.gte.value) == EightAmMs &&
                           DayNumber(q.gte.value) == DayNumber(from.value)
    ensures to.Some? ==> q.lt.value == FromBound(to.value) + DayMs - 1 &&
                         DayNumber(q.lt.value) == DayNumber(to.value) + 1
  {
    Query(line, closedOnly, column,
          if from.Some? then Some(FromBound(from.value)) else None,
          if to.Some? then Some(ToBound(to.value)) else None)
  }

  /** A handler's reply together with the query it issued, if any. */
  datatype Outcome<+T> = Outcome(reply: Reply<T>, query: Option<Query>)

  const LineRequired: string := "Line parameter is required."
}
