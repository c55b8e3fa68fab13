# Maintenance ticketing backend: a verified model of its reporting and guard logic

The backend of the maintenance-ticketing app answers HTTP requests about
production-line tickets. This project models three parts of its sequential
logic in Dafny and proves properties about them. The database, the JWT
library and the clock become inputs.

- **Operational time windows** (`utils/time.js`). The operational day runs
  from 08:00 to 07:59:59.999 the next day. The operational week runs from
  Monday 08:00. The older `server.js` anchors its "today" and "week"
  differently (`Clock`, `LegacyServer.TodayStart`, `LegacyServer.WeekStart`).
- **Ticket aggregation**.
  - The `reduce` and `forEach` dictionary folds are modelled by one loop
    method over a key list and a map (`Aggregation.Accumulate`). It is
    proved equal to the function `Aggregation.Group`.
  - The descending sorts of the by-process reports (`Aggregation.SortByTotalDesc`).
  - The per-line loop of `downtime.js` (`LineDowntime.Handle`).
  - The `forEach` reports of `server.js`.
- **Request decision chains**.
  - The 400 guards of the by-process reports.
  - The shared Bearer / role / field / row-count / error-name chain of
    `assign.js` and `resolve.js` (`TicketUpdate.Handle`).
  - The header-presence guards of the older `server.js` routes.

Instants are integer milliseconds on a fixed-offset local timeline. Day 0
is 1970-01-01, a Thursday. Each handler is a function or method of
its request and of what its database or token calls return. Its outcome
records the reply it sends and the calls it issued, in order. This lets
the contracts state which calls happen before which guard.

## Model

| member | source | states |
|---|---|---|
| Clock.AtEightAm | utils/time.js:22 | 08:00 on the same date, on the same weekday; it lies after the instant exactly when the instant is before 08:00 |
| Clock.StartOfIsoWeek | utils/time.js:44 | midnight of the Monday of the instant's ISO week, at most a week before it |
| Clock.DailyTimeRange | utils/time.js:20-31 | the start is at 08:00; start <= now <= end; end = start + 1 day - 1 ms; the start is yesterday's date before 08:00 and today's date otherwise |
| Clock.WeeklyTimeRange | utils/time.js:38-55 | the start is a Monday (ISO weekday 1) at 08:00; start <= now <= end; end = start + 7 days - 1 ms |
| Clock.WeeklyStartDay | utils/time.js:44-50 | on a Monday before 08:00 the week starts on the previous Monday, 7 days back; otherwise on the Monday of the current ISO week |
| Clock.DailyStartUnique | utils/time.js:22-27 | the daily start is the only 08:00 instant in the 24 hours up to now |
| Clock.WeeklyStartUnique | utils/time.js:41-50 | the weekly start is the only Monday-08:00 instant in the week up to now |
| Clock.SameOperationalDay | utils/time.js:20-31 | two instants get the same daily range if and only if the second lies within the first's range |
| Clock.SameOperationalWeek | utils/time.js:38-55 | two instants get the same weekly range if and only if the second lies within the first's range |
| Clock.FromBound | downtime-by-process.js:27 | the `from` bound is the given date at 08:00 |
| Clock.ToBound | downtime-by-process.js:31 | the `to` bound is the next date at 07:59:59.999, i.e. the `from` bound + 1 day - 1 ms |
| Clock.QueryWindowMissesLastMs | downtime.js:31-32 | the `gte(start)`/`lt(end)` filter over the daily range excludes its last millisecond, which the range itself contains |
| Text.Split | server.js:76 | at least one piece, and no piece contains the separator |
| Text.JoinSplit | server.js:76 | joining the split pieces with the separator gives the string back |
| Text.SplitJoin | server.js:76 | splitting a join of separator-free pieces gives the pieces back |
| Text.Decimal | server.js:93 | a non-empty string of decimal digits, with no leading zero except for 0 itself |
| Text.DecimalRoundTrip | server.js:93 | parsing the decimal rendering gives the number back |
| Text.DecimalInjective | server.js:93 | distinct numbers have distinct decimal renderings |
| Aggregation.KeysInOrder | downtime-by-process.js:39-43 | the dictionary's keys: no key twice, and a key is present if and only if some item carries it |
| Aggregation.Accumulate | downtime-by-process.js:39-43 | the loop over a key list and a map returns exactly `Group`, the per-key sums in key-insertion order |
| Aggregation.SumForAbsent | downtime-by-process.js:41 | a key that no item carries sums to 0 |
| Aggregation.KeysInFirstOccurrenceOrder | downtime-by-process.js:46 | keys are listed in the order of their first occurrence among the items |
| Aggregation.GroupConservesTotal | downtime-by-process.js:39-46 | the per-key totals add up to the total of all items |
| Aggregation.GroupEntries | downtime-by-process.js:39-46 | one entry per distinct key, in both directions, each holding its key's sum; no items give no entries |
| Aggregation.SumForPositive | tickets-by-process.js:38-42 | when every item adds at least 1, every present key's sum is at least 1 |
| Aggregation.SumForNonNegative | downtime-by-process.js:41 | when no item is negative, no key's sum is negative |
| Aggregation.TotalOfOnes | tickets-by-process.js:40 | items that each add 1 total their number |
| Aggregation.InsertByTotal | downtime-by-process.js:49 | the insertion step of the sort adds exactly one element: a permutation of the list plus it |
| Aggregation.SortByTotalDesc | downtime-by-process.js:49 | the sorted list is a permutation of its input |
| Aggregation.SortMembers | downtime-by-process.js:49 | sorting keeps exactly the same elements |
| Aggregation.SortSorted | downtime-by-process.js:49 | the result is non-increasing by total |
| Aggregation.SortStable | downtime-by-process.js:49 | the entries with any given total keep their relative order |
| Aggregation.SortSumTotals | downtime-by-process.js:49 | sorting preserves the sum of the totals |
| Aggregation.SortDistinct | downtime-by-process.js:49 | sorting keeps keys distinct |
| Aggregation.RankedReport | downtime-by-process.js:39-49 | grouped then sorted: distinct keys, exactly the occurring keys, per-key sums, totals conserved, non-increasing, stable against the unsorted grouping, empty for no items |
| ProcessReport.ProcessKey | downtime-by-process.js:40 | a null, missing or empty process maps to 'Unknown Process', any other name to itself |
| ProcessReport.UnknownProcessBucket | tickets-by-process.js:39 | the 'Unknown Process' bucket holds the nameless rows and the rows literally named so |
| ProcessReport.BuildQuery | downtime-by-process.js:20-33 | each bound is present exactly when its parameter is; `from` gives 08:00 on its date; `to` gives 1 day - 1 ms later, on the next date |
| DowntimeByProcess.Items | downtime-by-process.js:39-43 | each row becomes its normalised process with its downtime, 0 when missing |
| DowntimeByProcess.TotalMinutesIsTotal | downtime-by-process.js:41 | the items' total is the rows' downtime total, missing values as 0 |
| DowntimeByProcess.Handle | downtime-by-process.js:10-56 | a falsy `line` gives 400 and no query; otherwise the Closed/resolved_at query with its bounds; a query error gives 500 with its message; data gives 200 with the ranked per-process sums |
| DowntimeByProcess.SumForIsDowntimeOf | downtime-by-process.js:39-43 | a process's dictionary sum equals the downtime of that process's rows |
| DowntimeByProcess.ReportContents | downtime-by-process.js:38-49 | one entry per distinct process, both ways; each total is its process's downtime; the totals sum to the rows' total; sorted descending; stable; empty for no rows |
| TicketsByProcess.Items | tickets-by-process.js:38-42 | each row adds 1 to its normalised process |
| TicketsByProcess.Handle | tickets-by-process.js:10-55 | a falsy `line` gives 400 and no query; otherwise the created_at query with its bounds; a query error gives 500 with its message; data gives 200 with the ranked counts |
| TicketsByProcess.SumForIsCountOf | tickets-by-process.js:38-42 | a process's counter equals the number of its rows |
| TicketsByProcess.ReportContents | tickets-by-process.js:37-48 | one entry per distinct process, both ways; each count is its row count and at least 1; the counts sum to the number of rows; sorted descending; stable; empty for no rows |
| LineDowntime.TotalDowntime | downtime.js:36 | non-negative when every downtime is; 0 when all are missing, the empty result included |
| LineDowntime.TotalDowntimeAppend | downtime.js:36 | the sum over two runs of rows is the sum of their sums |
| LineDowntime.Handle | downtime.js:9-60 | a lines-query error gives 500 and no further query; otherwise the loop issues the queries and sends the records or the error of the line-by-line report `Collect` over the operational day |
| LineDowntime.FailureSticks | downtime.js:34-46 | once a query has failed, no later line changes the report or issues a query |
| LineDowntime.AllLinesReported | downtime.js:21-53 | when every query succeeds: one record per line in order, each with its line, its created-ticket count and its summed downtime; per line, first the closed-downtime query, then the created-count query |
| LineDowntime.FirstFailureReported | downtime.js:19-58 | the report fails when some line's query fails; it carries the first error, sends no records, and issues no query after the failing one |
| LegacyServer.StatusFilter | server.js:74-76 | no filter for a falsy `status`; otherwise its comma-split pieces, which join back to it and contain no comma |
| LegacyServer.TicketId | server.js:93 | the line, then '-', then the creation clock in decimal |
| LegacyServer.LastDash | server.js:93 | no dash follows the one after the line |
| LegacyServer.TicketIdInjective | server.js:93 | equal identifiers come from the same line and the same clock reading, even for lines containing dashes |
| LegacyServer.CreateTicket | server.js:86-110 | a falsy header gives 401 and no call; otherwise the user lookup comes first and at most two calls follow; a failed lookup (a rejected token included) gives 500 with its message after that one call; the insert is issued exactly when the lookup succeeds; a failed insert gives 500 with its message; 201 with the identifier exactly when both succeed |
| LegacyServer.UpdateTicketRoute | server.js:128-162 | a falsy header gives 401 and no update; any other header, whatever its content, reaches the update; 200 `{updated: true}` exactly when the update succeeds, 500 with its message otherwise |
| LegacyServer.JsDay | server.js:169 | `getDay()` is 0..6 and agrees with the ISO weekday shifted by one |
| LegacyServer.TodayStart | server.js:168 | 08:00 on now's own date, which lies after now exactly when now is before 08:00 |
| LegacyServer.WeekStart | server.js:169 | 08:00 on a Sunday (`getDay() == 0`), now's date minus its `getDay()`, at most 6 days back |
| LegacyServer.TodayStartVersusDailyRange | server.js:168 | from 08:00 on it equals the operational day's start; before 08:00 it is one day later |
| LegacyServer.WeekStartVersusWeeklyRange | server.js:169 | it is one day before the operational week's Monday; but on a Sunday, and on a Monday before 08:00, it is six days after it |
| LegacyServer.ServerKey | server.js:202 | a null key becomes the string "null"; any other key is itself |
| LegacyServer.ElapsedItems | server.js:198-203 | each row becomes its key with (resolved_at, or now when unresolved) - created_at |
| LegacyServer.UnresolvedUsesNow | server.js:199-202 | the last row adds now - created when unresolved, and resolved_at - created otherwise, to its own key only |
| LegacyServer.RoundMinutes | server.js:204 | `Math.round(ms / 60000)`: the nearest whole minute, halves rounded up |
| LegacyServer.RoundedDowntime | server.js:197-204 | one element per key in first-seen order; each holds its key's summed elapsed time, rounded once, after summing |
| LegacyServer.RoundsAfterSumming | server.js:202-204 | two half-minute outages on one line are reported as 1 minute, not 2 |
| LegacyServer.DowntimeByLine | server.js:187-210 | queries all three statuses from 08:00 on now's date; 500 with the error message, or 200 with the per-line rounded downtime |
| LegacyServer.DowntimeByProcess | server.js:212-233 | queries all three statuses, of the given line only when `line` is truthy; 500 with the message, or 200 with the per-process rounded downtime |
| LegacyServer.CountItems | server.js:242-245 | each row adds 1 to its process, null as "null" |
| LegacyServer.TicketsByProcess | server.js:235-252 | queries the Open tickets, of the given line only when `line` is truthy; 500 with the message, or 200 with the per-process counts unsorted |
| LegacyServer.TicketCounts | server.js:241-246 | distinct keys in first-seen order, every row's key present, each count at least 1, the counts summing to the number of rows |
| TicketUpdate.Token | assign.js:18 | after the "Bearer " prefix, the longest space-free prefix of the rest |
| TicketUpdate.TokenOfBearer | assign.js:14-18 | "Bearer " followed by a space-free token passes the header check and yields that token |
| TicketUpdate.Caught | assign.js:40-46 | 401 'Unauthorized: Invalid token' exactly for an error named `JsonWebTokenError`; 500 'Server error' for any other |
| TicketUpdate.Handle | assign.js:9-47 | a missing or non-Bearer header gives 401 and no call; a verify error goes to the catch; a role outside the three gives 403; then a falsy field gives 400; the update is issued exactly when all guards pass; no rows gives 404; otherwise 200 with the first row; an update error goes to the catch |
| TicketUpdate.ExpiredTokenIsServerError | assign.js:40-46 | an expired token, whose error is named `TokenExpiredError`, is answered with 500, not 401 |
| AssignTicket.Assign | assign.js:9-47 | the update (assigned_to, status, assigned_at, ticketId) is issued exactly when the chain passes; 400 exactly when the role is allowed but one of the four fields is falsy |
| ResolveTicket.Resolve | resolve.js:9-47 | the update (issue, fix, status, resolved_by, resolved_at, ticketId) is issued exactly when the chain passes; 400 exactly when the role is allowed but one of the six fields is falsy |

## Left out

- Supabase, `pg`, Express routing, `dotenv` and static files are left out. Every query result is an input, and so is what `jwt.verify` and `supabase.auth.getUser` return.
- Login, logout and `/api/user` (server.js:23-68) are left out: they only delegate to Supabase auth.
- Logging is left out.
- The clock is an input. `now`, `Date.now()` and `new Date()` are parameters. In `LegacyServer.CreateTicket`, the identifier's clock and `created_at` are two separate readings.
- Time zones and DST are not modelled. The timeline is fixed-offset local milliseconds, with no IANA time-zone database.
- LegacyServer.TodayStart: `utils/time.js` computes in `America/Mexico_City`, while `new Date(y, m, d, 8, 0, 0)` in `server.js` uses the host process's time zone. The model puts both on one timeline. So `TodayStart`, `WeekStart`, `TodayStartVersusDailyRange` and `WeekStartVersusWeeklyRange` assume the host has Mexico City's offset. On a UTC host the server's "today" starts at a different instant.
- LegacyServer.TicketId: the body field `line` is always a string. An absent `line` would give an identifier beginning `undefined-`; that case is not modelled.
- LegacyServer.StatusFilter: the `status` parameter is absent or a single string. A repeated parameter arrives as an array, `split` throws, and the route answers 500; that case is not modelled.
- DowntimeByProcess.Handle and TicketsByProcess.Handle: `line` is absent or a single string. A repeated `line` parameter arrives as a truthy array passed to `.eq`; that case is not modelled. The same holds for the optional `line` of `LegacyServer.DowntimeByProcess` and `LegacyServer.TicketsByProcess`.
- Parsing of ISO dates is not modelled. The `from`/`to` parameters and the timestamp columns arrive already parsed as instants. An unparsable `from`/`to` cannot be expressed.
- `ticket-stats.js` is not part of this model. It only counts the rows of two queries over the windows of `utils/time.js`.
- The `/api/ticket-stats` route of `server.js` is modelled only through its two window starts, `TodayStart` and `WeekStart`.
- The `/api/tickets` route of `server.js` is modelled only through its status filter. The route itself forwards the rows.
- LegacyServer.RoundedDowntime: the sums are exact integer milliseconds, rounded once with exact division. The source sums floating-point minutes, and its rounding errors are not modelled.
- Aggregation.KeysInOrder: keys are listed in plain insertion order. JavaScript lists integer-like keys first; that is not modelled.
- Aggregation.KeysInOrder: keys that name members of `Object.prototype` are not modelled. The dictionaries are plain `{}` objects. A process named `constructor` reads the inherited function through `acc[k] || 0`, and a process named `__proto__` is never stored. The model treats both as ordinary keys.
- Aggregation.SortByTotalDesc: the array `.sort` is modelled as a stable insertion sort on a sequence, not the engine's algorithm. The sort is stable, so its result is the unique stable ordering.
- LegacyServer.ServerKey: only a null column is mapped. The modelled values are null and strings.
- TicketUpdate.IsTruthy: body values are undefined, null, booleans, integers and strings. NaN, fractions, objects and arrays are not modelled.
- LegacyServer.CreateTicket: the TypeError thrown by destructuring a null `data` from `getUser` is not modelled. The lookup either succeeds or carries an error.
- LineDowntime.Handle: every line is a string, so a null `line` is not modelled. The lines need not be distinct; whether `distinct: true` deduplicates is left to the library.
- LineDowntime.Handle: the row count of a created-ticket query is a natural number, never null.
