/** The older all-in-one server.js: its ticket routes guarded only by the
    presence of an Authorization header, its own "today" and "week"
    anchors, and three `forEach` accumulators that group without sorting. */
module LegacyServer {
  import opened Common
  import opened Text
  import opened Clock
  import opened Aggregation

  // ---------------------------------------------------------------------
  // GET /api/tickets: the status filter

  /** `if (status) query = query.in('status', status.split(','))`: no filter
      for a missing or empty parameter, else the comma-separated list. */
  function StatusFilter(status: Option<string>): (f: Option<seq<string>>)
    ensures f.Some? <==> Truthy(status)
    ensures f.Some? ==> |f.value| >= 1 && Join(f.value, ',') == status.value
    ensures f.Some? ==> forall i :: 0 <= i < |f.value| ==> ',' !in f.value[i]
  {
    if Truthy(status) then
      JoinSplit(status.value, ',');
      Some(Split(status.value, ','))
    else None
  }

  // ---------------------------------------------------------------------
  // POST /api/tickets: the ticket identifier

  /** `${line}-${Date.now()}`: the line, a dash, and the creation clock in
      decimal milliseconds. */
  function TicketId(line: string, clockMs: nat): (id: string)
    ensures |id| == |line| + 1 + |Decimal(clockMs)|
    ensures id[..|line|] == line && id[|line|] == '-'
    ensures id[|line| + 1..] == Decimal(clockMs)
  {
    line + "-" + Decimal(clockMs)
  }

  /** In a ticket identifier the last dash is the one after the line. */
  lemma LastDash(line: string, clockMs: nat)
    ensures forall i :: |line| < i < |TicketId(line, clockMs)| ==> TicketId(line, clockMs)[i] != '-'
  {
    var id, digits := TicketId(line, clockMs), Decimal(clockMs);
    forall i | |line| < i < |id| ensures id[i] != '-' {
      assert id[i] == digits[i - |line| - 1];
    }
  }

  /** Different lines or creation clocks give different identifiers: the
      identifier can be split back into its line and its clock reading,
      even when the line itself contains dashes. */
  lemma TicketIdInjective(line: string, clockMs: nat, line': string, clockMs': nat)
    requires TicketId(line, clockMs) == TicketId(line', clockMs')
    ensures line == line' && clockMs == clockMs'
  {
    var id := TicketId(line, clockMs);
    LastDash(line, clockMs);
    LastDash(line', clockMs');
    // each dash position lies at or before the other's last dash
    assert id[|line'|] == '-' && id[|line|] == '-';
    assert line == id[..|line|] == line';
    DecimalInjective(clockMs, clockMs');
  }

  // ---------------------------------------------------------------------
  // The ticket routes and their header guard

  /** `authHeader.split(' ')[1]`, undefined when there is no space. */
  function BearerToken(header: string): Option<string>
  {
    var parts := Split(header, ' ');
    if |parts| >= 2 then Some(parts[1]) else None
  }

  /** The external calls a ticket route makes, in order. */
  datatype Call =
    | GetUser(token: Option<string>)
    | InsertTicket(ticketId: string, line: string, createdAt: Instant)
    | UpdateTicket(ticketId: string, columns: seq<string>)

  datatype Outcome<+T> = Outcome(reply: Reply<T>, calls: seq<Call>)

  const NoToken: string := "No token provided"

  /** POST /api/tickets (server.js:86-110).  `idClock` and `createdAt` are
      the two separate clock reads, `Date.now()` and `new Date()`.  A failed
      user lookup is thrown into the catch block, so a rejected token is
      answered with 500 and the lookup's message, not with 401. */
  function CreateTicket(header: Option<string>, line: string,
                        userLookup: DbResult<()>, inserted: DbResult<()>,
                        idClock: nat, createdAt: Instant): (o: Outcome<string>)
    ensures !Truthy(header) ==> o.reply == Reply(401, Error(NoToken)) && o.calls == []
    ensures Truthy(header) ==> |o.calls| >= 1 && o.calls[0] == GetUser(BearerToken(header.value))
    ensures |o.calls| <= 2
    ensures Truthy(header) && userLookup.DbError? ==>
              o == Outcome(Reply(500, Error(userLookup.message)), [GetUser(BearerToken(header.value))])
    ensures Truthy(header) && userLookup.Data? && inserted.DbError? ==>
              o.reply == Reply(500, Error(inserted.message))
    ensures |o.calls| == 2 <==> Truthy(header) && userLookup.Data?
    ensures |o.calls| == 2 ==> o.calls[1] == InsertTicket(TicketId(line, idClock), line, createdAt)
    ensures o.reply.status == 201 <==> Truthy(header) && userLookup.Data? && inserted.Data?
    ensures o.reply.status == 201 ==> o.reply.body == Json(TicketId(line, idClock))
    ensures o.reply.status != 201 && o.reply.status != 401 ==> o.reply.status == 500
  {
    if !Truthy(header) then Outcome(Reply(401, Error(NoToken)), [])
    else
      var lookup := GetUser(BearerToken(header.value));
      match userLookup
      case DbError(message) => Outcome(Reply(500, Error(message)), [lookup])
      case Data(_) =>
        var id := TicketId(line, idClock);
        var calls := [lookup, InsertTicket(id, line, createdAt)];
        match inserted
        case DbError(message) => Outcome(Reply(500, Error(message)), calls)
        case Data(_) => Outcome(Reply(201, Json(id)), calls)
  }

  const AssignColumns: seq<string> := ["assigned_to", "status", "assigned_at"]
  const ResolveColumns: seq<string> := ["issue", "fix", "status", "resolved_by", "resolved_at"]

  /** PUT /api/tickets/:ticket_id/assign and .../resolve (server.js:128-162):
      both check only that some Authorization header is present and then
      update the ticket; the token itself is never examined.  `columns` are
      the columns written, `AssignColumns` or `ResolveColumns`. */
  function UpdateTicketRoute(header: Option<string>, ticketId: string, columns: seq<string>,
                             updated: DbResult<()>): (o: Outcome<bool>)
    ensures !Truthy(header) ==> o.reply == Reply(401, Error(NoToken)) && o.calls == []
    ensures Truthy(header) ==> o.calls == [UpdateTicket(ticketId, columns)]
    ensures o.reply.status == 200 <==> Truthy(header) && updated.Data?
    ensures o.reply.status == 200 ==> o.reply.body == Json(true)
    ensures Truthy(header) && updated.DbError? ==> o.reply == Reply(500, Error(updated.message))
  {
    if !Truthy(header) then Outcome(Reply(401, Error(NoToken)), [])
    else
      match updated
      case DbError(message) => Outcome(Reply(500, Error(message)), [UpdateTicket(ticketId, columns)])
      case Data(_) => Outcome(Reply(200, Json(true)), [UpdateTicket(ticketId, columns)])
  }

  // ---------------------------------------------------------------------
  // The "today" and "week" anchors of /api/ticket-stats and /api/downtime

  /** `getDay()`: 0 for Sunday through 6 for Saturday. */
  function JsDay(t: Instant): (d: int)
    ensures 0 <= d < 7
    ensures IsoWeekday(t) == (d + 6) % 7 + 1
  {
    (DayNumber(t) + 4) % 7
  }

  /** `new Date(y, m, d, 8, 0, 0)`: 08:00 on `now`'s own date, even when
      `now` is earlier than that. */
  function TodayStart(now: Instant): (s: Instant)
    ensures DayNumber(s) == DayNumber(now) && TimeOfDay(s) == EightAmMs
    ensures now < s <==> TimeOfDay(now) < EightAmMs
  {
    AtEightAm(now)
  }

  /** `new Date(y, m, d - getDay(), 8, 0, 0)`: 08:00 on the Sunday that
      begins `now`'s Sunday-to-Saturday week. */
  function WeekStart(now: Instant): (s: Instant)
    ensures JsDay(s) == 0 && TimeOfDay(s) == EightAmMs
    ensures DayNumber(now) - 6 <= DayNumber(s) <= DayNumber(now)
    ensures DayNumber(s) == DayNumber(now) - JsDay(now)
  {
    var day := DayNumber(now) - JsDay(now);
    AtDay(day, EightAmMs);
    day * DayMs + EightAmMs
  }

  /** How this server's "today" differs from the operational day: from
      08:00 on it is the same instant; before 08:00 it is a day later, so
      it lies after `now`. */
  lemma TodayStartVersusDailyRange(now: Instant)
    ensures TimeOfDay(now) >= EightAmMs ==> TodayStart(now) == DailyTimeRange(now).start
    ensures TimeOfDay(now) < EightAmMs ==> TodayStart(now) == DailyTimeRange(now).start + DayMs
  {
    var s := DailyTimeRange(now).start;
    if TimeOfDay(now) < EightAmMs {
      ShiftDays(s, 1);
      AtDay(DayNumber(now), EightAmMs);
      assert s + DayMs == DayNumber(now) * DayMs + EightAmMs;
    } else {
      AtDay(DayNumber(now), EightAmMs);
      assert s == DayNumber(now) * DayMs + EightAmMs;
    }
  }

  /** How this server's "week" differs from the operational week: it starts
      at 08:00 on Sunday, the day before the operational week's Monday;
      but on a Sunday, and on a Monday before 08:00, the operational week
      still is the one that began six days before this Sunday anchor. */
  lemma WeekStartVersusWeeklyRange(now: Instant)
    ensures JsDay(now) == 0 || (JsDay(now) == 1 && TimeOfDay(now) < EightAmMs) ==>
              WeeklyTimeRange(now).start == WeekStart(now) - 6 * DayMs
    ensures JsDay(now) != 0 && !(JsDay(now) == 1 && TimeOfDay(now) < EightAmMs) ==>
              WeeklyTimeRange(now).start == WeekStart(now) + DayMs
  {
    var w := WeeklyTimeRange(now).start;
    WeeklyStartDay(now);
    var d := DayNumber(w);
    assert w == d * DayMs + EightAmMs;
    var s := WeekStart(now);
    assert s == DayNumber(s) * DayMs + EightAmMs;
  }

  // ---------------------------------------------------------------------
  // The forEach accumulators

  /** A dictionary key made from a column value: JavaScript turns a null
      key into the string "null". */
  function ServerKey(v: Option<string>): (k: string)
    ensures v.Some? ==> k == v.value
    ensures v.None? ==> k == "null"
  {
    if v.Some? then v.value else "null"
  }

  /** One row of `select('line, created_at, resolved_at')` or
      `select('process, created_at, resolved_at')`: `key` is the line or the
      process. */
  datatype TimedRow = TimedRow(key: Option<string>, createdAt: Instant, resolvedAt: Option<Instant>)

  /** The time a ticket has been down: until its resolution, or until `now`
      when it is not resolved yet. */
  function ElapsedMs(row: TimedRow, now: Instant): int
  {
    (if row.resolvedAt.Some? then row.resolvedAt.value else now) - row.createdAt
  }

  function ElapsedItems(rows: seq<TimedRow>, now: Instant): (items: seq<Item>)
    ensures |items| == |rows|
    ensures forall j :: 0 <= j < |rows| ==> items[j] == Item(ServerKey(rows[j].key), ElapsedMs(rows[j], now))
  {
    seq(|rows|, j requires 0 <= j < |rows| => Item(ServerKey(rows[j].key), ElapsedMs(rows[j], now)))
  }

  /** `Math.round(ms / 60000)`: the whole number of minutes nearest to `ms`,
      halves rounded up. */
  function RoundMinutes(ms: int): (m: int)
    ensures m * MinuteMs - MinuteMs / 2 <= ms < m * MinuteMs + MinuteMs / 2
  {
    (ms + MinuteMs / 2) / MinuteMs
  }

  datatype KeyMinutes = KeyMinutes(key: string, minutes: int)

  /** The accumulated downtime read back key by key, in insertion order,
      each sum rounded to minutes once, after summing. */
  function RoundedDowntime(rows: seq<TimedRow>, now: Instant): (r: seq<KeyMinutes>)
    ensures |r| == |KeysInOrder(ElapsedItems(rows, now))|
    ensures forall i :: 0 <= i < |r| ==>
              r[i].key == KeysInOrder(ElapsedItems(rows, now))[i] &&
              r[i].minutes == RoundMinutes(SumFor(ElapsedItems(rows, now), r[i].key))
  {
    var g := Group(ElapsedItems(rows, now));
    seq(|g|, i requires 0 <= i < |g| => KeyMinutes(g[i].key, RoundMinutes(g[i].total)))
  }

  /** A query this server issues: `status` among the given values,
      optionally one line, optionally `created_at >= createdFrom`. */
  datatype ServerQuery = ServerQuery(statuses: seq<string>, line: Option<string>, createdFrom: Option<Instant>)

  datatype Report<+T> = Report(reply: Reply<T>, query: ServerQuery)

  const AllStatuses: seq<string> := ["Open", "Ongoing", "Closed"]

  /** GET /api/downtime (server.js:187-210): tickets created since 08:00 on
      today's date, their downtime summed per line. */
  function DowntimeByLine(now: Instant, fetched: DbResult<seq<TimedRow>>): (o: Report<seq<KeyMinutes>>)
    ensures o.query == ServerQuery(AllStatuses, None, Some(TodayStart(now)))
    ensures fetched.DbError? ==> o.reply == Reply(500, Error(fetched.message))
    ensures fetched.Data? ==> o.reply == Reply(200, Json(RoundedDowntime(fetched.rows, now)))
  {
    var query := ServerQuery(AllStatuses, None, Some(TodayStart(now)));
    match fetched
    case DbError(message) => Report(Reply(500, Error(message)), query)
    case Data(rows) => Report(Reply(200, Json(RoundedDowntime(rows, now))), query)
  }

  /** GET /api/downtime-by-process (server.js:212-233): the same sum per
      process, over every ticket, of one line when `line` is given. */
  function DowntimeByProcess(line: Option<string>, now: Instant,
                             fetched: DbResult<seq<TimedRow>>): (o: Report<seq<KeyMinutes>>)
    ensures o.query == ServerQuery(AllStatuses, if Truthy(line) then line else None, None)
    ensures fetched.DbError? ==> o.reply == Reply(500, Error(fetched.message))
    ensures fetched.Data? ==> o.reply == Reply(200, Json(RoundedDowntime(fetched.rows, now)))
  {
    var query := ServerQuery(AllStatuses, if Truthy(line) then line else None, None);
    match fetched
    case DbError(message) => Report(Reply(500, Error(message)), query)
    case Data(rows) => Report(Reply(200, Json(RoundedDowntime(rows, now))), query)
  }

  function CountItems(processes: seq<Option<string>>): (items: seq<Item>)
    ensures |items| == |processes|
    ensures forall j :: 0 <= j < |processes| ==> items[j] == Item(ServerKey(processes[j]), 1)
  {
    seq(|processes|, j requires 0 <= j < |processes| => Item(ServerKey(processes[j]), 1))
  }

  /** GET /api/tickets-by-process (server.js:235-252): the open tickets,
      of one line when `line` is given, counted per process in first-seen
      order. */
  function TicketsByProcess(line: Option<string>, fetched: DbResult<seq<Option<string>>>): (o: Report<seq<Entry>>)
    ensures o.query == ServerQuery(["Open"], if Truthy(line) then line else None, None)
    ensures fetched.DbError? ==> o.reply == Reply(500, Error(fetched.message))
    ensures fetched.Data? ==> o.reply == Reply(200, Json(Group(CountItems(fetched.rows))))
  {
    var query := ServerQuery(["Open"], if Truthy(line) then line else None, None);
    match fetched
    case DbError(message) => Report(Reply(500, Error(message)), query)
    case Data(rows) => Report(Reply(200, Json(Group(CountItems(rows)))), query)
  }

  /** The counts sent by /api/tickets-by-process: one per distinct key, in
      first-seen order, each at least 1, adding up to the number of rows. */
  lemma TicketCounts(processes: seq<Option<string>>)
    ensures var items := CountItems(processes); var g := Group(items);
      && DistinctKeys(g)
      && (forall i :: 0 <= i < |g| ==> g[i].key == KeysInOrder(items)[i] && g[i].total >= 1)
      && (forall j :: 0 <= j < |processes| ==> ServerKey(processes[j]) in KeySet(g))
      && SumTotals(g) == |processes|
  {
    var items := CountItems(processes);
    var g := Group(items);
    GroupEntries(items);
    GroupConservesTotal(items);
    TotalOfOnes(items);
    forall i | 0 <= i < |g| ensures g[i].total >= 1 {
      SumForPositive(items, g[i].key);
    }
    forall j | 0 <= j < |processes| ensures ServerKey(processes[j]) in KeySet(g) {
      assert items[j].key == ServerKey(processes[j]);
    }
  }

  /** An unresolved ticket counts as down until `now`; a resolved one until
      its resolution; both from its creation. */
  lemma UnresolvedUsesNow(rows: seq<TimedRow>, now: Instant, k: string)
    ensures rows != [] ==>
      var last := rows[|rows| - 1];
      SumFor(ElapsedItems(rows, now), k) ==
        SumFor(ElapsedItems(rows[..|rows| - 1], now), k) +
        (if ServerKey(last.key) != k then 0
         else if last.resolvedAt.None? then now - last.createdAt
         else last.resolvedAt.value - last.createdAt)
  {
    if rows != [] {
      assert ElapsedItems(rows, now)[..|rows| - 1] == ElapsedItems(rows[..|rows| - 1], now);
    }
  }

  /** Rounding happens once, after summing: two half-minute outages on one
      line are reported as 1 minute, not as 2. */
  lemma RoundsAfterSumming(line: string, t: Instant)
    ensures var rows := [TimedRow(Some(line), t, Some(t + 30_000)),
                         TimedRow(Some(line), t, Some(t + 30_000))];
            RoundedDowntime(rows, t) == [KeyMinutes(line, 1)]
  {
    var rows := [TimedRow(Some(line), t, Some(t + 30_000)),
                 TimedRow(Some(line), t, Some(t + 30_000))];
    var items := ElapsedItems(rows, t);
    assert items == [Item(line, 30_000), Item(line, 30_000)];
    assert items[..1] == [Item(line, 30_000)];
    assert KeysInOrder(items[..1]) == [line] by {
      assert items[..1][..0] == [];
    }
    assert KeysInOrder(items) == [line];
    assert SumFor(items[..1], line) == 30_000 by {
      assert items[..1][..0] == [];
    }
    assert SumFor(items, line) == 60_000;
    assert RoundMinutes(30_000) + RoundMinutes(30_000) == 2;
  }
}
