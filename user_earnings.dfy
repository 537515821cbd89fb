/**
 * The second earnings aggregation, mounted under `/api/users`: the summary
 * walks the worker's appointments created since the cutoff and files each
 * one as earned, owed or neither, and the stats sum completed prices by
 * creation date. Unlike the summary under `/api/appointments`, both filter
 * on `created_at` rather than `scheduled_date`, and `pending` (not
 * `in_progress`) counts as owed.
 */
module UserEarnings {
  import opened Common
  import opened Schema
  import opened Query
  import opened AppointmentEarnings

  // ---------------------------------------------------------------- the query

  /** `a.worker_id = ? AND a.created_at >= ?`, joined to the client's user row. */
  function CreatedSinceJoined(users: seq<User>, w: int, cutoff: int): Appointment -> bool
  {
    (a: Appointment) => a.workerId == w && a.createdAt >= cutoff && UserExists(users, a.clientId)
  }

  /** `ORDER BY a.scheduled_date DESC`. */
  predicate LaterVisitFirst(a: Appointment, b: Appointment)
  {
    a.scheduledDate >= b.scheduledDate
  }

  lemma LaterVisitFirstOrders()
    ensures TotalPreorder(LaterVisitFirst)
  {
  }

  /** The rows the summary walks, in the order the query returns them. */
  function EarningsRows(appts: seq<Appointment>, users: seq<User>, w: int, cutoff: int): (r: seq<Appointment>)
    ensures forall a :: a in r <==> a in appts && a.workerId == w && a.createdAt >= cutoff && UserExists(users, a.clientId)
    ensures multiset(r) == multiset(Filter(appts, CreatedSinceJoined(users, w, cutoff)))
    ensures SortedBy(r, LaterVisitFirst)
  {
    var rows := Filter(appts, CreatedSinceJoined(users, w, cutoff));
    LaterVisitFirstOrders();
    SortBySorted(rows, LaterVisitFirst);
    SortByMembers(rows, LaterVisitFirst);
    SortBy(rows, LaterVisitFirst)
  }

  // ---------------------------------------------------------------- the summary

  /** Completed rows add to `total_earnings`. */
  function Earned(): Appointment -> bool
  {
    (a: Appointment) => a.status == AppointmentStatus.Completed
  }

  /** Pending and confirmed rows add to `pending_earnings`. */
  function Owed(): Appointment -> bool
  {
    (a: Appointment) => a.status == AppointmentStatus.Pending || a.status == Confirmed
  }

  /** In-progress and cancelled rows add to neither. */
  function Unbilled(): Appointment -> bool
  {
    (a: Appointment) => a.status == InProgress || a.status == Cancelled
  }

  /** One pushed transaction; `date` is the creation time and the amount is never NULL. */
  datatype Entry = Entry(
    id: int,
    date: int,
    serviceType: string,
    totalCost: int,
    status: AppointmentStatus,
    scheduledDate: int)

  datatype Report = Report(totalEarnings: int, pendingEarnings: int, transactions: seq<Entry>)

  function EntryOf(a: Appointment): (r: Entry)
    ensures r.id == a.id && r.status == a.status && r.date == a.createdAt
    ensures a.totalCost.None? ==> r.totalCost == 0
    ensures a.totalCost.Some? ==> r.totalCost == a.totalCost.value
  {
    Entry(a.id, a.createdAt, a.serviceType, CostOrZero(a), a.status, a.scheduledDate)
  }

  /** The running total of the `forEach`: the prices of the rows `p` files, in walk order. */
  function RunningSum(rows: seq<Appointment>, p: Appointment -> bool): int
    decreases |rows|
  {
    if rows == [] then 0
    else
      var init, last := rows[..|rows| - 1], rows[|rows| - 1];
      RunningSum(init, p) + (if p(last) then CostOrZero(last) else 0)
  }

  /** The running total is the SQL-style sum over the rows the clause selects. */
  lemma {:induction false} RunningSumIsFilteredSum(rows: seq<Appointment>, p: Appointment -> bool)
    ensures RunningSum(rows, p) == SumCosts(Filter(rows, p))
    decreases |rows|
  {
    if rows != [] {
      var init, last := rows[..|rows| - 1], rows[|rows| - 1];
      assert rows == init + [last];
      RunningSumIsFilteredSum(init, p);
      SumFilterAppend(init, last, p);
    }
  }

  /** The `forEach` over the query rows: two running totals and one transaction per row. */
  method Tally(rows: seq<Appointment>) returns (report: Report)
    ensures report.totalEarnings == SumCosts(Filter(rows, Earned()))
    ensures report.pendingEarnings == SumCosts(Filter(rows, Owed()))
    ensures |report.transactions| == |rows|
    ensures forall i :: 0 <= i < |rows| ==> report.transactions[i] == EntryOf(rows[i])
  {
    var total, pending := 0, 0;
    var entries: seq<Entry> := [];
    var i := 0;
    while i < |rows|
      invariant 0 <= i <= |rows|
      invariant total == RunningSum(rows[..i], Earned())
      invariant pending == RunningSum(rows[..i], Owed())
      invariant |entries| == i
      invariant forall k :: 0 <= k < i ==> entries[k] == EntryOf(rows[k])
    {
      var a := rows[i];
      var amount := CostOrZero(a);
      assert rows[..i + 1][..i] == rows[..i];
      if a.status == AppointmentStatus.Completed {
        total := total + amount;
      } else if a.status == AppointmentStatus.Pending || a.status == Confirmed {
        pending := pending + amount;
      }
      entries := entries + [EntryOf(a)];
      i := i + 1;
    }
    assert rows[..i] == rows;
    RunningSumIsFilteredSum(rows, Earned());
    RunningSumIsFilteredSum(rows, Owed());
    report := Report(total, pending, entries);
  }

  /** `GET /api/users/worker/earnings?range=...`: the query, then the tally. */
  method WorkerEarnings(appts: seq<Appointment>, users: seq<User>, w: int, range: Option<string>,
                        today: int, monthAgo: int, yearAgo: int)
    returns (report: Report)
    ensures var rows := EarningsRows(appts, users, w, RangeCutoff(range, today, monthAgo, yearAgo));
      && report.totalEarnings == SumCosts(Filter(rows, Earned()))
      && report.pendingEarnings == SumCosts(Filter(rows, Owed()))
      && |report.transactions| == |rows|
      && forall i :: 0 <= i < |rows| ==> report.transactions[i] == EntryOf(rows[i])
  {
    report := Tally(EarningsRows(appts, users, w, RangeCutoff(range, today, monthAgo, yearAgo)));
  }

  /** Every row's amount lands in exactly one of earned, owed or unbilled. */
  lemma {:induction false} StatusPartition(rows: seq<Appointment>)
    ensures SumCosts(Filter(rows, Earned())) + SumCosts(Filter(rows, Owed())) + SumCosts(Filter(rows, Unbilled()))
      == SumCosts(rows)
    decreases |rows|
  {
    if rows != [] {
      var init, last := rows[..|rows| - 1], rows[|rows| - 1];
      assert rows == init + [last];
      StatusPartition(init);
      SumFilterAppend(init, last, Earned());
      SumFilterAppend(init, last, Owed());
      SumFilterAppend(init, last, Unbilled());
      SumCostsAppend(init, last);
    }
  }

  // ---------------------------------------------------------------- the stats

  /** `worker_id = ? AND status = 'completed' AND created_at >= ?`, with no join. */
  function CompletedCreatedSince(w: int, cutoff: int): Appointment -> bool
  {
    (a: Appointment) => a.workerId == w && a.status == AppointmentStatus.Completed && a.createdAt >= cutoff
  }

  /**
   * `GET /api/users/worker/earnings/stats`: completed sums by creation date
   * from the given calendar cutoffs (a week, a month and a year before now)
   * and the undated completed count. With nested windows and no negative
   * prices, weekly <= monthly <= yearly.
   */
  function CreationStats(appts: seq<Appointment>, w: int, weekStart: int, monthStart: int, yearStart: int): (r: Stats)
    ensures r.totalCompleted <= |appts|
    ensures yearStart <= monthStart <= weekStart && (forall a :: a in appts ==> CostOrZero(a) >= 0) ==>
      0 <= r.weekly <= r.monthly <= r.yearly
  {
    var week := Filter(appts, CompletedCreatedSince(w, weekStart));
    WindowsOrdered(appts, CompletedCreatedSince(w, weekStart), CompletedCreatedSince(w, monthStart),
                   CompletedCreatedSince(w, yearStart));
    Stats(
      SumCosts(week),
      SumCosts(Filter(appts, CompletedCreatedSince(w, monthStart))),
      SumCosts(Filter(appts, CompletedCreatedSince(w, yearStart))),
      |Filter(appts, CompletedBy(w))|)
  }

  /**
   * The summary and the stats agree: when every client of the worker has a
   * user row, the summary's `total_earnings` over a window is the stats'
   * completed sum over the same window, whatever order the rows came in.
   */
  lemma {:induction false} SummaryTotalIsStatsSum(appts: seq<Appointment>, users: seq<User>, w: int, cutoff: int)
    requires forall a :: a in appts && a.workerId == w ==> UserExists(users, a.clientId)
    ensures SumCosts(Filter(EarningsRows(appts, users, w, cutoff), Earned()))
      == SumCosts(Filter(appts, CompletedCreatedSince(w, cutoff)))
  {
    var rows := EarningsRows(appts, users, w, cutoff);
    var selected := Filter(appts, CreatedSinceJoined(users, w, cutoff));
    FilterPerm(rows, selected, Earned());
    SumCostsPerm(Filter(rows, Earned()), Filter(selected, Earned()));
    FilterFilter(appts, CreatedSinceJoined(users, w, cutoff), Earned(), CompletedCreatedSince(w, cutoff));
  }

  /** So the weekly summary total is the weekly stat, when both use the same week start. */
  lemma WeeklySummaryIsWeeklyStat(appts: seq<Appointment>, users: seq<User>, w: int, today: int, monthStart: int, yearStart: int)
    requires forall a :: a in appts && a.workerId == w ==> UserExists(users, a.clientId)
    ensures SumCosts(Filter(EarningsRows(appts, users, w, RangeCutoff(None, today, monthStart, yearStart)), Earned()))
      == CreationStats(appts, w, today - 7, monthStart, yearStart).weekly
  {
    assert RangeCutoff(None, today, monthStart, yearStart) == today - 7;
    SummaryTotalIsStatsSum(appts, users, w, today - 7);
    WeeklyCreationStat(appts, w, today - 7, monthStart, yearStart);
  }

  lemma WeeklyCreationStat(appts: seq<Appointment>, w: int, weekStart: int, monthStart: int, yearStart: int)
    ensures CreationStats(appts, w, weekStart, monthStart, yearStart).weekly
      == SumCosts(Filter(appts, CompletedCreatedSince(w, weekStart)))
  {
  }
}
