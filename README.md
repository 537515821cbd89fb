# QuickService backend core, modelled in Dafny

This project models the two Express route modules of the QuickService
backend that hold its business rules:

- `backend/routes/appointments.js` covers the service-request and appointment lifecycle:
  - a client contacts a worker (a service request) or books an appointment directly;
  - the worker sets a request's status, or accepts it, which runs a two-write transaction that also creates an appointment;
  - either party sets an appointment's status, and its worker sets its price;
  - the list queries;
  - the worker earnings summary and its week/month/year stats.
- `backend/routes/users.js` covers worker profile upkeep:
  - the weekly schedule (save as a per-day upsert loop, read with seven default slots, stats);
  - the Spanish/English day-name maps;
  - the tri-state availability flag and its reader;
  - the role and profession choices;
  - the partial profile update with lazy creation of the worker row;
  - the public worker listing with its filters and ordering;
  - a second, different earnings summary and stats.

The relational store is the class `Schema.Db`. Its fields are the tables:

- `users`: a sequence with unique ids.
- `workers`: a map keyed by `user_id`.
- `service_requests` and `appointments`: sequences in insertion order. As a modelling simplification the k-th row has id k + 1: ids are dense, and rows are never removed (see "## Left out").
- `worker_availability`: a sequence of rows keyed by (worker, day).

Each handler that writes is a method on the store:

- Its `modifies` clause names the tables it writes.
- It returns an `Outcome`: `Ok` for 200/201, or `BadRequest`, `Forbidden`, `NotFound` or `ServerError` for 400, 403, 404 and 500.
- Its contract gives the new content of every table it may write, for every branch, including the error branches that write nothing.

Read-only endpoints are functions. A SQL query is `Query.Filter` for the WHERE clause, then `Query.SortBy` for the ORDER BY. The properties of `SortBy` are proved: it returns a permutation of its input, ordered by the key.

Modelling conventions:

- Money is integer cents.
- Dates are day numbers.
- Appointment and request times are seconds of the day.
- Schedule times stay strings, because the read handler slices them.
- "Now", "today" and the calendar cutoffs (a month and a year back) are parameters.
- JavaScript truthiness is written out. `Present` is a non-empty string, `NonZero` is a non-zero number, `TextOr` is `s || default`, and `Patch` distinguishes a field that was not sent (`undefined`) from one sent as null.

The MySQL driver refuses a bind parameter that is `undefined`, and the model follows what the code does with that:

- An accept without `budget_amount` fails with 500 and is rolled back.
- A price update without `total_cost` fails with 500.
- An availability save without `immediate_service`, `coverage_radius` or `time_slots`, or with an unknown day label, fails with 500 and is rolled back.

Some rules a reader might expect are not enforced by the code, and the model follows the code as written:

- Accepting a request stores whatever `budget_amount` the body carries as the new price (appointments.js:309-311, 316-327). The app's `acceptRequest` sends `budget_amount: null` when no budget is given (frontend/src/services/clientApi.js:322-334), and that stores a NULL price. A body that leaves the field out binds `undefined`, so the transaction rolls back with 500 (appointments.js:349-353). `AppointmentRoutes.Accept` takes the budget as a `Patch` to tell the two apart.
- The accept guard checks only that the caller is the request's worker (appointments.js:293-301). It never looks at the request's status, so a second accept creates a second appointment (`AppointmentRoutes.AcceptTwice`).
- A caller who is not the request's or appointment's worker gets 404, not 403 (appointments.js:271, 299, 381). The guard's query cannot tell a missing row from someone else's row (`SetRequestStatus`, `Accept`, `SetPrice`).
- Status updates check the new value against a flat list only (appointments.js:226-229, 259-262). Any listed status may follow any other (`SetAppointmentStatus`, `SetRequestStatus`).
- A weekly-schedule save walks whatever `time_slots` holds (users.js:807-829). The payload may have fewer than seven entries or repeat a day, and a repeated day keeps its last entry (`Schedule.SaveAvailability`, `Schedule.SaveSlotsStoresLast`).

## Model

| member | source | states |
|---|---|---|
| Common.TextOr | backend/routes/appointments.js:46-51 | `x \|\| default` on a string: exactly the sent value when it is non-empty, exactly the default otherwise |
| Common.TextOrNull | backend/routes/appointments.js:47 | `x \|\| null`: an empty or absent string is stored as NULL, a non-empty one unchanged |
| Common.NumberOrNull | backend/routes/appointments.js:48 | `x \|\| null` on a number: 0 or absent is stored as NULL, any other value unchanged |
| Week.ToSpanish | backend/routes/users.js:723-731 | defined exactly on the seven English keys, always giving a Spanish label |
| Week.ToEnglish | backend/routes/users.js:783-791 | defined exactly on the seven Spanish labels, always giving an English key |
| Week.DayMapsInverse | backend/routes/users.js:783-791 | the two day maps are mutual inverses, in both directions |
| Week.DayMapsAligned | backend/routes/users.js:723-731 | both maps pair the i-th key with the i-th label, Monday first |
| Schema.ParseAppointmentStatus | backend/routes/appointments.js:226-229 | accepts exactly the five listed statuses, and the accepted name is the status's own name |
| Schema.AppointmentStatusRoundTrip | backend/routes/appointments.js:226-229 | every appointment status parses back from its stored name |
| Schema.ParseRequestStatus | backend/routes/appointments.js:259-262 | accepts exactly pending/accepted/rejected/completed, and the accepted name is the status's name |
| Schema.RequestStatusRoundTrip | backend/routes/appointments.js:259-262 | every request status parses back from its stored name |
| Schema.ParseAvailability | backend/routes/users.js:640-642 | accepts exactly available/busy/offline |
| Schema.AvailabilityRoundTrip | backend/routes/users.js:640-642 | every availability value parses back from its stored name |
| Schema.ParseChosenRole | backend/routes/users.js:342-344 | accepts exactly `client` and `worker`, mapping `client` to the client role and `worker` to the worker role, and never yields admin |
| Schema.UserIndex | backend/routes/users.js:111-118 | finds a position holding the user's id, and finds none exactly when no row has that id |
| Query.Filter | backend/routes/appointments.js:163-172 | a WHERE clause: keeps exactly the rows that satisfy it, never more rows or copies than the table holds |
| Query.SortBy | backend/routes/appointments.js:171 | an ORDER BY returns the same rows with the same multiplicities |
| Query.SortBySorted | backend/routes/appointments.js:171 | for any total preorder key, the ORDER BY result is ordered by that key |
| Query.SortByMembers | backend/routes/appointments.js:171 | a row is in the ORDER BY result exactly when it is in its input |
| Schedule.Upsert | backend/routes/users.js:811-828 | one loop iteration: the worker's rows for the day take the entry's values, every other row is untouched, and at most one row is appended |
| Schedule.SaveSlots | backend/routes/users.js:807-829 | the table after the whole loop, absent when the loop aborts; a completed save adds at most one row per payload entry |
| Schedule.LastFor | backend/routes/users.js:807-829 | the payload entry whose values a save leaves for a day exists exactly when some entry names that day |
| Schedule.SaveSlotsFails | backend/routes/users.js:807-813 | the save loop aborts exactly when some day label has no English key |
| Schedule.UpsertFrame | backend/routes/users.js:811-828 | one select-then-update-or-insert changes only the (worker, day) rows, adds at most one such row, keeps every key, and leaves the day holding the entry's values |
| Schedule.SaveSlotsFrame | backend/routes/users.js:807-829 | a save never changes a row's key and leaves every row of another worker or of a day not in the payload untouched; new rows are the worker's payload days |
| Schedule.SaveSlotsKeepsKeys | backend/routes/users.js:807-829 | a save keeps (worker, day) keys unique and every stored day known |
| Schedule.SaveSlotsStoresLast | backend/routes/users.js:816-828 | after a save every payload day has a row for the worker, holding the values of that day's last entry |
| Schedule.SaveSlotsCovered | backend/routes/users.js:816-821 | when every payload day already has a row, a save only rewrites those rows in place |
| Schedule.SaveSlotsIdempotent | backend/routes/users.js:807-829 | saving the same payload a second time leaves the table exactly as the first save left it |
| Schedule.UpsertSlots | backend/routes/users.js:807-829 | the loop succeeds exactly when every day label is known, and then leaves the table the save specification gives; an unknown day leaves the schedule unchanged |
| Schedule.SaveAvailability | backend/routes/users.js:794-848 | commits exactly when the flag, the radius and `time_slots` are sent and every day is known. On commit the worker row gets the new flag and radius, or stays absent, and the schedule is the specified save. Otherwise both tables are rolled back. Keys stay unique |
| Schedule.CutTime | backend/routes/users.js:750-751 | `substring(0, 5)` of a stored time: its first five characters when longer, the time itself when shorter, and the fallback when empty |
| Schedule.DefaultSlots | backend/routes/users.js:735-744 | seven slots labelled Lunes..Domingo; weekdays enabled 09:00-18:00, weekend disabled 10:00-14:00 |
| Schedule.SlotsFor | backend/routes/users.js:735-753 | with no stored row for the worker the seven defaults; otherwise one view per stored row, in table order |
| Schedule.SaveThenRead | backend/routes/users.js:747-752 | after a save with distinct days and HH:MM times, the read answers every saved entry back under its own label |
| Schedule.ReadAvailability | backend/routes/users.js:703-762 | 404 exactly without a worker row. Otherwise `immediate_service` is true only when stored true, `coverage_radius` is the stored non-zero radius or 15, and the slots are `SlotsFor` (nothing is written) |
| Schedule.AvailabilityPercentage | backend/routes/users.js:882 | `Math.round(days / 7 * 100)`: within one half of 100 * days / 7 |
| Schedule.ActiveDaysCountsDays | backend/routes/users.js:867-870 | on a table with unique keys the enabled-row count is the number of distinct enabled days |
| Schedule.ActiveDaysFacts | backend/routes/users.js:867-870 | with unique keys the active-day count is the number of distinct enabled days, and with known days it is at most 7 |
| Schedule.ActiveDaysBounded | backend/routes/users.js:880-882 | on a valid table at most seven days are active and the percentage lies in [0, 100] |
| Schedule.AvailabilityStatsOf | backend/routes/users.js:867-888 | `active_days` and its rounded percentage; on a valid table at most 7 days and 0..100 percent |
| AppointmentRoutes.ContactRequest | backend/routes/appointments.js:38-54 | the stored request belongs to the caller and the named worker and is pending. urgency defaults to medium and contact method to both. An empty description, a zero budget or an absent phone become NULL; dates and times are copied |
| AppointmentRoutes.BookedAppointment | backend/routes/appointments.js:116-131 | the stored booking belongs to the caller, has the sent date and time, status pending and no price; empty optional texts become NULL |
| AppointmentRoutes.AppointmentFrom | backend/routes/appointments.js:316-330 | the accepted appointment copies client, worker and service type and is pending with the budget as price. Without a description it uses 'Servicio aceptado desde solicitud'; without a date, today; without a time, 10:00 |
| AppointmentRoutes.Contact | backend/routes/appointments.js:21-54 | 400 and no write without worker or service type. 404 and no write when the worker id names no user with role worker. Otherwise exactly the `ContactRequest` row is appended under the next id |
| AppointmentRoutes.Book | backend/routes/appointments.js:97-131 | 400 and 404 write nothing, as for contact (plus date and time required). Otherwise the `BookedAppointment` row is appended under the next id and is listed for its client |
| AppointmentRoutes.SetAppointmentStatus | backend/routes/appointments.js:226-244 | 400 for a status outside the list and 404 for a caller who is neither client nor worker of the row, both without writing. Otherwise only that row's status changes, with no transition rule |
| AppointmentRoutes.SetRequestStatus | backend/routes/appointments.js:259-277 | 400 for a status outside the list and 404 (nothing written) unless the caller is the request's worker. Otherwise only that row's status changes |
| AppointmentRoutes.Accept | backend/routes/appointments.js:293-356 | 404 unless the caller is the assigned worker. A refused write or absent budget rolls back both tables with 500. Otherwise the request becomes accepted with the budget, and exactly one `AppointmentFrom` row is appended |
| AppointmentRoutes.AcceptTwice | backend/routes/appointments.js:293-330 | accepting an already accepted request succeeds again and appends a second appointment with a different id |
| AppointmentRoutes.SetPrice | backend/routes/appointments.js:375-388 | 404 with no write unless the caller is the row's worker. An absent amount is 500 with no write. Otherwise only that row's price changes, at any status |
| AppointmentRoutes.LaterSlotFirstOrders | backend/routes/appointments.js:171 | date-then-time descending is a total preorder |
| AppointmentRoutes.NewerFirstOrders | backend/routes/appointments.js:201 | `created_at` descending is a total preorder |
| AppointmentRoutes.MyAppointments | backend/routes/appointments.js:163-172 | exactly the appointments where the caller is client or worker and both users exist, as a permutation of the WHERE result, latest slot first |
| AppointmentRoutes.WorkerAppointments | backend/routes/appointments.js:606-615 | exactly the appointments whose worker is the caller (both users existing), latest slot first |
| AppointmentRoutes.MyRequests | backend/routes/appointments.js:193-202 | exactly the requests where the caller is client or worker and both users exist, newest first |
| AppointmentRoutes.ListedForWorker | backend/routes/appointments.js:567-570 | a listed request equals the stored one except that `client_phone` is the client's phone from its user row |
| AppointmentRoutes.WorkerRequests | backend/routes/appointments.js:564-576 | one row per request whose worker is the caller (both users existing), and nothing else, newest first. Each row shows the client's current `users.phone` as `client_phone`, because the joined column overwrites the stored one; every other field is the stored row |
| AppointmentRoutes.WorkerAppointmentsWithinMine | backend/routes/appointments.js:606-615 | the worker listing is the shared listing restricted to rows the caller works on |
| AppointmentRoutes.AcceptedIsListed | backend/routes/appointments.js:316-330 | the appointment an accept creates appears in both the worker's and the client's listings, carrying the budget |
| AppointmentRoutes.ContactIsListed | backend/routes/appointments.js:38-54 | a stored contact request appears in the client's request listing, and in the worker's listing with the client's current phone in place of the one the token carried |
| AppointmentEarnings.SumCostsSign | backend/routes/appointments.js:466-472 | a sum of non-negative prices is non-negative; a sum of positive prices is positive unless there are no rows |
| AppointmentEarnings.SumFilterMono | backend/routes/appointments.js:509-536 | with no negative prices, a wider WHERE clause never sums to less |
| AppointmentEarnings.TotalEarnings | backend/routes/appointments.js:431-468 | the completed rows since the cutoff, NULL prices as 0; non-negative when prices are |
| AppointmentEarnings.PendingEarnings | backend/routes/appointments.js:449-472 | always non-negative, and positive exactly when some in-progress or confirmed row of the worker has a positive price |
| AppointmentEarnings.History | backend/routes/appointments.js:474-482 | every completed row tagged `completed` and every awaiting row tagged `pending`, nothing else, newest date first |
| AppointmentEarnings.Summarize | backend/routes/appointments.js:404-500 | the range summary: `pending_earnings` is never negative, `total_earnings` is not negative when no price is, and the history holds only `completed` and `pending` entries, newest date first |
| AppointmentEarnings.SummaryHistoryQualifies | backend/routes/appointments.js:431-482 | every `completed` history entry is a visit on or after the range's cutoff, and every `pending` entry carries a positive price |
| AppointmentEarnings.UnknownRangeIsWeek | backend/routes/appointments.js:416-428 | any range other than month or year gives the week's summary |
| AppointmentEarnings.PendingIgnoresRange | backend/routes/appointments.js:449-464 | `pending_earnings` is the same for every range |
| AppointmentEarnings.NothingCompletedEarnsZero | backend/routes/appointments.js:466-468 | with no matching completed row, `total_earnings` is 0 |
| AppointmentEarnings.WeekWithinMonth | backend/routes/appointments.js:416-422 | with non-negative prices, the week's total is at most the month's |
| AppointmentEarnings.MonthWithinYear | backend/routes/appointments.js:420-425 | with non-negative prices, the month's total is at most the year's |
| AppointmentEarnings.TotalEarningsMono | backend/routes/appointments.js:431-447 | with non-negative prices, an earlier cutoff never earns less |
| AppointmentEarnings.EarningsStats | backend/routes/appointments.js:503-563 | the three completed sums 7, 30 and 365 days back and the undated completed count (never more than the table's rows); with non-negative prices 0 <= weekly <= monthly <= yearly |
| AppointmentEarnings.CompletedCountCoversWindows | backend/routes/appointments.js:538-545 | `total_completed` counts at least the completed rows of any date window |
| AppointmentEarnings.SummaryWeekIsStatsWeek | backend/routes/appointments.js:509-516 | when every client of the worker exists, the summary's week total equals the stats' weekly figure |
| AppointmentEarnings.SumCostsPerm | backend/routes/appointments.js:466-468 | a SUM does not depend on the order the rows come in: two row lists with the same multiset sum alike |
| AppointmentEarnings.JoinIrrelevant | backend/routes/appointments.js:440-441 | when every client exists, the join on users drops no completed row |
| UserRoutes.ProfileOf | backend/routes/users.js:145-150 | the current worker row, present exactly when the user has one |
| UserRoutes.FreshWorker | backend/routes/users.js:170-173 | a lazily created worker row is available and carries only profession and description |
| UserRoutes.MergedUser | backend/routes/users.js:123-128 | each sent field replaces the stored one and each field not sent keeps it; id and role never change |
| UserRoutes.MergedWorker | backend/routes/users.js:150-174 | profession and description are merged over the current row or over NULLs; every other column of an existing row is kept, and a new row is a fresh available one |
| UserRoutes.ProfileMergeIdempotent | backend/routes/users.js:123-157 | sending the same profile twice stores what the first send stored |
| UserRoutes.EmptyPatchKeepsProfile | backend/routes/users.js:123-157 | a body that sends nothing leaves the user row and an existing worker row as they were |
| UserRoutes.UpdateProfile | backend/routes/users.js:102-179 | 400, nothing written, when a sent name is empty or null; 500 and rollback when the user is missing. Otherwise the user row is merged in place. The worker row is merged (or created) only for a worker token that sent profession or description |
| UserRoutes.UpdateRole | backend/routes/users.js:342-364 | 400 for any role but client or worker, 500 with no change for a missing user; otherwise only that user's role changes |
| UserRoutes.ProfessionDescription | backend/routes/users.js:431 | the sent description when it is non-empty, otherwise "Soy <profession> profesional" |
| UserRoutes.WithProfession | backend/routes/users.js:424-442 | sets the profession and that description, keeping every other column of an existing row or inserting an available row |
| UserRoutes.UpdateProfession | backend/routes/users.js:393-443 | 400 without a profession, 404 for a missing user and 400 when the stored role is not worker, all without writing. Otherwise only the caller's worker row changes |
| UserRoutes.MyAvailability | backend/routes/users.js:949-962 | the stored flag, or `available` when the user has no worker row |
| UserRoutes.SetWorkerAvailability | backend/routes/users.js:636-647 | 403 for a non-worker token and 400 for a value outside the three, both without writing. Otherwise the caller's row takes the flag and reads back as it. With no row nothing is written, success is still answered, and the reader keeps answering `available` |
| UserRoutes.WorkerRows | backend/routes/users.js:540-547 | the inner join: one card per user with role worker that has a worker row |
| UserRoutes.HigherRatedFirstOrders | backend/routes/users.js:566 | rating descending with NULL last is a total preorder |
| UserRoutes.ListWorkers | backend/routes/users.js:550-566 | exactly the joined workers passing the filters (profession equality, minimum rating, only available when `available=true`), as a permutation of that WHERE result, highest rating first |
| UserRoutes.UnfilteredListsEveryWorker | backend/routes/users.js:540-547 | without filters every user with role worker and a worker row is listed |
| UserRoutes.OnlyProfiledWorkersListed | backend/routes/users.js:540-547 | every listed card is a user stored with role worker, showing its worker row's availability and rating |
| UserRoutes.UnavailableWorkerHidden | backend/routes/users.js:562-564 | with `available=true` a busy or offline worker is not listed |
| UserEarnings.LaterVisitFirstOrders | backend/routes/users.js:1005 | `scheduled_date` descending is a total preorder |
| UserEarnings.EarningsRows | backend/routes/users.js:1000-1007 | exactly the worker's appointments created since the cutoff whose client exists, latest visit first |
| UserEarnings.EntryOf | backend/routes/users.js:1025-1033 | one transaction per row with its id, status and creation date, and a NULL price as 0 |
| UserEarnings.RunningSumIsFilteredSum | backend/routes/users.js:1016-1023 | the loop's running total equals the sum over the rows it files |
| UserEarnings.Tally | backend/routes/users.js:1012-1034 | the loop's total is the sum over completed rows and its pending figure the sum over pending and confirmed rows; it pushes one entry per row, in row order |
| UserEarnings.WorkerEarnings | backend/routes/users.js:977-1034 | the summary for the range's cutoff is the tally of `EarningsRows` |
| UserEarnings.StatusPartition | backend/routes/users.js:1019-1023 | every row's amount lands in exactly one of earned, owed, or neither |
| UserEarnings.CreationStats | backend/routes/users.js:1056-1127 | completed sums by creation date from the week, month and year cutoffs and the undated completed count; with nested windows and non-negative prices 0 <= weekly <= monthly <= yearly |
| UserEarnings.SummaryTotalIsStatsSum | backend/routes/users.js:1078-1083 | when every client exists, the summary's earned total over a window equals the stats' completed sum over that window, whatever the row order |
| UserEarnings.WeeklySummaryIsWeeklyStat | backend/routes/users.js:1066-1083 | so the default (week) summary total equals the weekly stat computed from the same week start |

## Left out

- Avatar upload and file clean-up (`PUT /avatar`) are left out because they are file I/O.
- Password change and account deletion are left out because they are hashing calls and cascading deletes.
- `GET /profile` and `GET /workers/:id` are single-row reads with no rule beyond the join.
- `GET /api/users/stats` is left out because it reads a `services` table that nothing in the core writes.
- Authentication is not modelled. The token middleware's caller (id, role, phone) is an input.
- The worker-only role guard is assumed to answer 403. Its file is not part of this model.
- `weekly_hours` of the availability stats is left out. It is a `TIMESTAMPDIFF` over time strings.
- The `ORDER BY day_of_week` of the availability read is left out: stored rows are shown in table order. This affects only the order of the slots, not which slots are shown.
- Calendar arithmetic (`DATE_SUB`, `CURDATE`, `setMonth`, `setFullYear`) is replaced by cutoff parameters. The users earnings filter `created_at` at day granularity rather than to the millisecond.
- `updated_at` columns and the display-only join columns (`worker_name`, `client_name`, `worker_phone`, e-mail addresses) are not modelled. They add fields next to the stored ones. The one joined column that replaces a stored field, `client_phone` in the worker's request listing, is modelled by `AppointmentRoutes.ListedForWorker`.
- The HTTP status codes 200 and 201 are not distinguished. Neither are the response messages or the re-read of a row after a write.
- The MySQL normalisation of `TIME` values (`'10:00'` to `'10:00:00'`) is not modelled. Times are seconds of the day, or opaque strings in the schedule.
- Floating-point money is not modelled. `parseFloat` on a price is an integer number of cents, and a non-numeric price or `min_rating` (NaN) is not represented.
- Concurrency of simultaneous handlers is left out. So is any isolation level: the model runs one handler at a time and keeps only the per-call rollback.
- A body field sent as a value of the wrong JSON type (a number for a name, a string for a flag) is not represented.
- The columns a `workers` INSERT does not name (rating, immediate_service, coverage_radius) are taken as NULL. The table's column defaults are not part of this model.
- The order among rows with equal sort keys is not modelled. SQL leaves it unspecified, and JavaScript's stable sort of the earnings history depends on row order that SQL does not fix.
- The mysql2 driver's refusal of `undefined` bind parameters is modelled as a 500 with rollback. The driver itself is not part of this model.
- Schedule.SaveAvailability: the UPDATE of the worker row and the schedule loop are modelled as one step each. A failure of an individual SQL statement other than the refused `undefined` parameter is not modelled.
- AppointmentRoutes.Accept: a database failure is an injected `WriteFault` parameter rather than a real fault.
- Ids of `service_requests` and `appointments` are dense in the model: row k has id k + 1. AUTO_INCREMENT skips the ids of rolled-back inserts (such as a failed accept), and deleting an account (`DELETE /api/users/profile`) cascades to that user's requests and appointments. Neither kind of gap is modelled. Handlers find rows by the id they are given, so the simplification only fixes which id a new row receives.
- UserRoutes.ListWorkers: the profession filter is exact string equality. MySQL compares `w.profession = ?` under the column's collation, which with the default collations ignores case and accents, so `plomero` also lists `Plomero` there but not in the model.
- Schedule.SaveAvailability: a `time_slots` entry is always a complete record. An entry that lacks `day`, `enabled`, `startTime` or `endTime` binds `undefined`, so the driver refuses it and the transaction rolls back with 500; the model cannot express such an entry. A slot saved with a null time, which the read shows as its fallback, is not represented either.
- Database errors on the read endpoints are left out. Each read handler answers 500 from its catch block when a query fails, but the model's reads are total functions over the tables and have no database faults.
