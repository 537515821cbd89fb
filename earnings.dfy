/**
 * The worker earnings of `/api/appointments/worker/earnings` (a summary over
 * a chosen range) and `/worker/earnings/stats` (week, month and year totals
 * and the number of completed services). Both are read-only aggregations
 * over `appointments`; calendar cutoffs are parameters.
 */
module AppointmentEarnings {
  import opened Common
  import opened Schema
  import opened Query

  /** `parseFloat(total_cost) || 0`: a NULL price counts as 0. */
  function CostOrZero(a: Appointment): int
  {
    if a.totalCost.Some? then a.totalCost.value else 0
  }

  /**
   * The `reduce` of the summary, and `COALESCE(SUM(total_cost), 0)` of the
   * stats: the total price of the rows, NULL prices counting as 0.
   */
  function SumCosts(rows: seq<Appointment>): int
    decreases |rows|
  {
    if rows == [] then 0
    else SumCosts(rows[..|rows| - 1]) + CostOrZero(rows[|rows| - 1])
  }

  /** With no negative prices a sum is never negative; with only positive prices it is positive unless empty. */
  lemma {:induction false} SumCostsSign(rows: seq<Appointment>)
    ensures (forall a :: a in rows ==> CostOrZero(a) >= 0) ==> SumCosts(rows) >= 0
    ensures (forall a :: a in rows ==> CostOrZero(a) > 0) ==> (SumCosts(rows) > 0 <==> rows != [])
    decreases |rows|
  {
    if rows != [] {
      var init, last := rows[..|rows| - 1], rows[|rows| - 1];
      assert forall a :: a in init ==> a in rows;
      assert last in rows;
      SumCostsSign(init);
    }
  }

  lemma SumCostsAppend(s: seq<Appointment>, a: Appointment)
    ensures SumCosts(s + [a]) == SumCosts(s) + CostOrZero(a)
  {
    assert (s + [a])[..|s|] == s;
  }

  lemma {:induction false} SumCostsConcat(s: seq<Appointment>, t: seq<Appointment>)
    ensures SumCosts(s + t) == SumCosts(s) + SumCosts(t)
    decreases |t|
  {
    if t != [] {
      var init, last := t[..|t| - 1], t[|t| - 1];
      assert t == init + [last];
      assert s + t == (s + init) + [last];
      SumCostsConcat(s, init);
      SumCostsAppend(s + init, last);
      SumCostsAppend(init, last);
    } else {
      assert s + t == s;
    }
  }

  /** Taking one row out of a table takes out one copy of it. */
  lemma RemoveRowCopy(t: seq<Appointment>, j: int)
    requires 0 <= j < |t|
    ensures multiset(t) == multiset(t[..j] + t[j + 1..]) + multiset{t[j]}
  {
    var before, x, after := t[..j], t[j], t[j + 1..];
    assert t == before + [x] + after;
    assert multiset(t) == multiset(before) + multiset{x} + multiset(after);
    assert multiset(before + after) == multiset(before) + multiset(after);
  }

  /** Taking one row out of a table takes out its price. */
  lemma RemoveRowPrice(t: seq<Appointment>, j: int)
    requires 0 <= j < |t|
    ensures SumCosts(t) == SumCosts(t[..j] + t[j + 1..]) + CostOrZero(t[j])
  {
    var before, x, after := t[..j], t[j], t[j + 1..];
    assert t == (before + [x]) + after;
    SumCostsConcat(before + [x], after);
    SumCostsAppend(before, x);
    SumCostsConcat(before, after);
  }

  lemma MultisetCancel(a: multiset<Appointment>, b: multiset<Appointment>, x: Appointment)
    requires a + multiset{x} == b + multiset{x}
    ensures a == b
  {
    forall y
      ensures a[y] == b[y]
    {
      assert (a + multiset{x})[y] == (b + multiset{x})[y];
    }
  }

  /** A sum does not depend on the order of the rows. */
  lemma {:induction false} SumCostsPerm(s: seq<Appointment>, t: seq<Appointment>)
    requires multiset(s) == multiset(t)
    ensures SumCosts(s) == SumCosts(t)
    decreases |s|
  {
    if s == [] {
      assert |t| == |multiset(t)| == 0;
    } else {
      var init, x := s[..|s| - 1], s[|s| - 1];
      assert s == init + [x];
      assert x in multiset(t);
      var j :| 0 <= j < |t| && t[j] == x;
      var rest := t[..j] + t[j + 1..];
      RemoveRowCopy(t, j);
      RemoveRowPrice(t, j);
      assert multiset(s) == multiset(init) + multiset{x};
      MultisetCancel(multiset(init), multiset(rest), x);
      SumCostsPerm(init, rest);
      SumCostsAppend(init, x);
    }
  }

  /** One more row adds its price to a filtered sum exactly when the WHERE clause selects it. */
  lemma SumFilterAppend(s: seq<Appointment>, a: Appointment, p: Appointment -> bool)
    ensures SumCosts(Filter(s + [a], p)) == SumCosts(Filter(s, p)) + (if p(a) then CostOrZero(a) else 0)
  {
    var f := Filter(s, p);
    FilterAppend(s, a, p);
    if p(a) {
      assert Filter(s + [a], p) == f + [a];
      SumCostsAppend(f, a);
    } else {
      assert Filter(s + [a], p) == f;
    }
  }

  /** With no negative prices, a wider WHERE clause never sums to less. */
  lemma {:induction false} SumFilterMono(t: seq<Appointment>, p: Appointment -> bool, q: Appointment -> bool)
    requires forall a :: a in t && p(a) ==> q(a)
    requires forall a :: a in t ==> CostOrZero(a) >= 0
    ensures SumCosts(Filter(t, p)) <= SumCosts(Filter(t, q))
    decreases |t|
  {
    if t != [] {
      var init, last := t[..|t| - 1], t[|t| - 1];
      assert t == init + [last];
      SumFilterMono(init, p, q);
      var fp, fq := Filter(init, p), Filter(init, q);
      assert SumCosts(fp) <= SumCosts(fq);
      if p(last) {
        assert q(last);
        assert Filter(t, p) == fp + [last];
        assert Filter(t, q) == fq + [last];
        SumCostsAppend(fp, last);
        SumCostsAppend(fq, last);
      } else if q(last) {
        assert Filter(t, p) == fp;
        assert Filter(t, q) == fq + [last];
        SumCostsAppend(fq, last);
      } else {
        assert Filter(t, p) == fp;
        assert Filter(t, q) == fq;
      }
    }
  }
  /**
   * Three nested WHERE clauses over rows with no negative price sum to
   * 0 <= narrow <= middle <= wide.
   */
  lemma WindowsOrdered(t: seq<Appointment>, p: Appointment -> bool, q: Appointment -> bool, s: Appointment -> bool)
    ensures && (forall a :: a in t && p(a) ==> q(a))
            && (forall a :: a in t && q(a) ==> s(a))
            && (forall a :: a in t ==> CostOrZero(a) >= 0)
            ==> 0 <= SumCosts(Filter(t, p)) <= SumCosts(Filter(t, q)) <= SumCosts(Filter(t, s))
  {
    if && (forall a :: a in t && p(a) ==> q(a))
       && (forall a :: a in t && q(a) ==> s(a))
       && (forall a :: a in t ==> CostOrZero(a) >= 0)
    {
      var rows := Filter(t, p);
      assert forall a :: a in rows ==> a in t;
      SumCostsSign(rows);
      SumFilterMono(t, p, q);
      SumFilterMono(t, q, s);
    }
  }


  // ---------------------------------------------------------------- WHERE clauses

  /** `worker_id = ? AND status = 'completed' AND scheduled_date >= cutoff`. */
  function CompletedSince(w: int, cutoff: int): Appointment -> bool
  {
    (a: Appointment) => a.workerId == w && a.status == AppointmentStatus.Completed && a.scheduledDate >= cutoff
  }

  /** The same, joined to the client's user row as the summary query is. */
  function CompletedSinceJoined(users: seq<User>, w: int, cutoff: int): Appointment -> bool
  {
    (a: Appointment) =>
      a.workerId == w && a.status == AppointmentStatus.Completed && a.scheduledDate >= cutoff && UserExists(users, a.clientId)
  }

  /** `worker_id = ? AND status IN ('in_progress', 'confirmed') AND total_cost > 0`, joined to the client. */
  function AwaitingPayment(users: seq<User>, w: int): Appointment -> bool
  {
    (a: Appointment) =>
      && a.workerId == w
      && (a.status == InProgress || a.status == Confirmed)
      && a.totalCost.Some? && a.totalCost.value > 0
      && UserExists(users, a.clientId)
  }

  /** `worker_id = ? AND status = 'completed'`, with no date. */
  function CompletedBy(w: int): Appointment -> bool
  {
    (a: Appointment) => a.workerId == w && a.status == AppointmentStatus.Completed
  }

  // ---------------------------------------------------------------- summary

  /**
   * The `dateFilter` of the summary: `month` and `year` use the calendar
   * cutoffs, every other range (and an absent one, which defaults to
   * `week`) goes back seven days.
   */
  function RangeCutoff(range: Option<string>, today: int, monthAgo: int, yearAgo: int): int
  {
    if range == Some("month") then monthAgo
    else if range == Some("year") then yearAgo
    else today - 7
  }

  /** One entry of the summary's history; `status` is `completed` or `pending`. */
  datatype Transaction = Transaction(id: int, serviceType: string, totalCost: Option<int>, status: string, date: int, createdAt: int)

  datatype Summary = Summary(totalEarnings: int, pendingEarnings: int, transactions: seq<Transaction>)

  function AsTransaction(a: Appointment, tag: string): Transaction
  {
    Transaction(a.id, a.serviceType, a.totalCost, tag, a.scheduledDate, a.createdAt)
  }

  function Tagged(rows: seq<Appointment>, tag: string): seq<Transaction>
  {
    seq(|rows|, i requires 0 <= i < |rows| => AsTransaction(rows[i], tag))
  }

  /** The history's sort: newest `date` first. */
  predicate NewestFirst(x: Transaction, y: Transaction)
  {
    x.date >= y.date
  }

  lemma NewestFirstOrders()
    ensures TotalPreorder(NewestFirst)
  {
  }

  /** `total_earnings`: the completed rows on or after the cutoff whose client exists. */
  function TotalEarnings(appts: seq<Appointment>, users: seq<User>, w: int, cutoff: int): (r: int)
    ensures (forall a :: a in appts ==> CostOrZero(a) >= 0) ==> r >= 0
  {
    var rows := Filter(appts, CompletedSinceJoined(users, w, cutoff));
    assert forall a :: a in rows ==> a in appts;
    SumCostsSign(rows);
    SumCosts(rows)
  }

  /** `pending_earnings`: positive, and only when some row still awaits payment, whatever its date. */
  function PendingEarnings(appts: seq<Appointment>, users: seq<User>, w: int): (r: int)
    ensures r >= 0
    ensures r > 0 <==> exists a :: a in appts && AwaitingPayment(users, w)(a)
  {
    var rows := Filter(appts, AwaitingPayment(users, w));
    assert forall a :: a in rows ==> CostOrZero(a) > 0;
    assert rows != [] ==> rows[0] in rows;
    SumCostsSign(rows);
    SumCosts(rows)
  }

  /**
   * The merged history: every completed row tagged `completed`, every
   * awaiting row tagged `pending`, newest date first.
   */
  function History(completed: seq<Appointment>, pending: seq<Appointment>): (r: seq<Transaction>)
    ensures |r| == |completed| + |pending|
    ensures multiset(r) == multiset(Tagged(completed, "completed")) + multiset(Tagged(pending, "pending"))
    ensures forall x :: x in r ==> x.status == "completed" || x.status == "pending"
    ensures SortedBy(r, NewestFirst)
  {
    var history := Tagged(completed, "completed") + Tagged(pending, "pending");
    NewestFirstOrders();
    SortBySorted(history, NewestFirst);
    SortByMembers(history, NewestFirst);
    SortBy(history, NewestFirst)
  }

  /**
   * `GET /worker/earnings?range=...` for worker `w`: the completed total over
   * the range, the owed total over all dates, and the merged history.
   */
  function Summarize(appts: seq<Appointment>, users: seq<User>, w: int, range: Option<string>, today: int, monthAgo: int, yearAgo: int)
    : (r: Summary)
    ensures r.pendingEarnings >= 0
    ensures (forall a :: a in appts ==> CostOrZero(a) >= 0) ==> r.totalEarnings >= 0
    ensures forall x :: x in r.transactions ==> x.status == "completed" || x.status == "pending"
    ensures SortedBy(r.transactions, NewestFirst)
  {
    var cutoff := RangeCutoff(range, today, monthAgo, yearAgo);
    Summary(
      TotalEarnings(appts, users, w, cutoff),
      PendingEarnings(appts, users, w),
      History(Filter(appts, CompletedSinceJoined(users, w, cutoff)), Filter(appts, AwaitingPayment(users, w))))
  }

  /** An unknown or absent range is the week. */
  lemma UnknownRangeIsWeek(appts: seq<Appointment>, users: seq<User>, w: int, range: Option<string>, today: int, monthAgo: int, yearAgo: int)
    requires range != Some("month") && range != Some("year")
    ensures Summarize(appts, users, w, range, today, monthAgo, yearAgo)
         == Summarize(appts, users, w, Some("week"), today, monthAgo, yearAgo)
  {
  }

  /** `pending_earnings` does not depend on the range: it has no date filter. */
  lemma PendingIgnoresRange(appts: seq<Appointment>, users: seq<User>, w: int, r1: Option<string>, r2: Option<string>,
                            today: int, monthAgo: int, yearAgo: int)
    ensures Summarize(appts, users, w, r1, today, monthAgo, yearAgo).pendingEarnings
         == Summarize(appts, users, w, r2, today, monthAgo, yearAgo).pendingEarnings
  {
  }

  /** With no completed row on or after the cutoff, `total_earnings` is 0, not null. */
  lemma NothingCompletedEarnsZero(appts: seq<Appointment>, users: seq<User>, w: int, cutoff: int)
    requires forall a :: a in appts ==> !CompletedSinceJoined(users, w, cutoff)(a)
    ensures TotalEarnings(appts, users, w, cutoff) == 0
  {
    FilterNone(appts, CompletedSinceJoined(users, w, cutoff));
  }

  /** The summary's `total_earnings` is the total over its range's cutoff. */
  lemma SummaryTotal(appts: seq<Appointment>, users: seq<User>, w: int, range: Option<string>, today: int, monthAgo: int, yearAgo: int)
    ensures Summarize(appts, users, w, range, today, monthAgo, yearAgo).totalEarnings
         == TotalEarnings(appts, users, w, RangeCutoff(range, today, monthAgo, yearAgo))
  {
  }

  /** Every tagged entry satisfies what each of its rows satisfies. */
  lemma TaggedKeeps(rows: seq<Appointment>, tag: string, q: Transaction -> bool)
    requires forall a :: a in rows ==> q(AsTransaction(a, tag))
    ensures forall x :: x in Tagged(rows, tag) ==> q(x)
  {
    forall x | x in Tagged(rows, tag)
      ensures q(x)
    {
      var i :| 0 <= i < |rows| && Tagged(rows, tag)[i] == x;
      assert rows[i] in rows;
    }
  }

  /**
   * What the history shows: a `completed` entry is a visit on or after the
   * range's cutoff, and a `pending` entry always carries a positive price.
   */
  lemma SummaryHistoryQualifies(appts: seq<Appointment>, users: seq<User>, w: int, range: Option<string>,
                                today: int, monthAgo: int, yearAgo: int)
    ensures var s := Summarize(appts, users, w, range, today, monthAgo, yearAgo);
      forall x :: x in s.transactions ==>
        && (x.status == "completed" ==> x.date >= RangeCutoff(range, today, monthAgo, yearAgo))
        && (x.status == "pending" ==> x.totalCost.Some? && x.totalCost.value > 0)
  {
    var cutoff := RangeCutoff(range, today, monthAgo, yearAgo);
    var completed := Filter(appts, CompletedSinceJoined(users, w, cutoff));
    var pending := Filter(appts, AwaitingPayment(users, w));
    var q := (x: Transaction) =>
      && (x.status == "completed" ==> x.date >= cutoff)
      && (x.status == "pending" ==> x.totalCost.Some? && x.totalCost.value > 0);
    TaggedKeeps(completed, "completed", q);
    TaggedKeeps(pending, "pending", q);
    var s := Summarize(appts, users, w, range, today, monthAgo, yearAgo);
    var merged := Tagged(completed, "completed") + Tagged(pending, "pending");
    assert multiset(s.transactions) == multiset(merged);
    forall x | x in s.transactions
      ensures q(x)
    {
      assert x in multiset(s.transactions);
      assert x in merged;
    }
  }

  /** With no negative prices, the week earns no more than the month. */
  lemma WeekWithinMonth(appts: seq<Appointment>, users: seq<User>, w: int, today: int, monthAgo: int, yearAgo: int)
    requires monthAgo <= today - 7
    requires forall a :: a in appts ==> CostOrZero(a) >= 0
    ensures Summarize(appts, users, w, Some("week"), today, monthAgo, yearAgo).totalEarnings
         <= Summarize(appts, users, w, Some("month"), today, monthAgo, yearAgo).totalEarnings
  {
    SummaryTotal(appts, users, w, Some("week"), today, monthAgo, yearAgo);
    SummaryTotal(appts, users, w, Some("month"), today, monthAgo, yearAgo);
    TotalEarningsMono(appts, users, w, today - 7, monthAgo);
  }

  /** With no negative prices, the month earns no more than the year. */
  lemma MonthWithinYear(appts: seq<Appointment>, users: seq<User>, w: int, today: int, monthAgo: int, yearAgo: int)
    requires yearAgo <= monthAgo
    requires forall a :: a in appts ==> CostOrZero(a) >= 0
    ensures Summarize(appts, users, w, Some("month"), today, monthAgo, yearAgo).totalEarnings
         <= Summarize(appts, users, w, Some("year"), today, monthAgo, yearAgo).totalEarnings
  {
    SummaryTotal(appts, users, w, Some("month"), today, monthAgo, yearAgo);
    SummaryTotal(appts, users, w, Some("year"), today, monthAgo, yearAgo);
    TotalEarningsMono(appts, users, w, monthAgo, yearAgo);
  }

  /** With no negative prices, an earlier cutoff never earns less. */
  lemma TotalEarningsMono(appts: seq<Appointment>, users: seq<User>, w: int, cutoff: int, earlier: int)
    requires earlier <= cutoff
    requires forall a :: a in appts ==> CostOrZero(a) >= 0
    ensures TotalEarnings(appts, users, w, cutoff) <= TotalEarnings(appts, users, w, earlier)
  {
    SumFilterMono(appts, CompletedSinceJoined(users, w, cutoff), CompletedSinceJoined(users, w, earlier));
  }

  // ---------------------------------------------------------------- stats

  datatype Stats = Stats(weekly: int, monthly: int, yearly: int, totalCompleted: nat)

  /**
   * `GET /worker/earnings/stats`: completed sums 7, 30 and 365 days back and
   * the undated completed count, with no join on users. With no negative
   * prices, weekly <= monthly <= yearly.
   */
  function EarningsStats(appts: seq<Appointment>, w: int, today: int): (r: Stats)
    ensures r.totalCompleted <= |appts|
    ensures (forall a :: a in appts ==> CostOrZero(a) >= 0) ==> 0 <= r.weekly <= r.monthly <= r.yearly
  {
    var week := Filter(appts, CompletedSince(w, today - 7));
    WindowsOrdered(appts, CompletedSince(w, today - 7), CompletedSince(w, today - 30), CompletedSince(w, today - 365));
    Stats(
      SumCosts(week),
      SumCosts(Filter(appts, CompletedSince(w, today - 30))),
      SumCosts(Filter(appts, CompletedSince(w, today - 365))),
      |Filter(appts, CompletedBy(w))|)
  }

  /** `total_completed` has no date filter: it counts at least the completed rows of any window. */
  lemma CompletedCountCoversWindows(appts: seq<Appointment>, w: int, today: int, cutoff: int)
    ensures |Filter(appts, CompletedSince(w, cutoff))| <= EarningsStats(appts, w, today).totalCompleted
  {
    FilterLengthMono(appts, CompletedSince(w, cutoff), CompletedBy(w));
  }

  /**
   * The two endpoints agree on the week when every client of the worker
   * still has a user row (only the summary joins on users).
   */
  lemma SummaryWeekIsStatsWeek(appts: seq<Appointment>, users: seq<User>, w: int, today: int)
    requires forall a :: a in appts && a.workerId == w ==> UserExists(users, a.clientId)
    ensures TotalEarnings(appts, users, w, today - 7) == EarningsStats(appts, w, today).weekly
  {
    JoinIrrelevant(appts, users, w, today - 7);
    WeeklyStat(appts, w, today);
  }

  lemma WeeklyStat(appts: seq<Appointment>, w: int, today: int)
    ensures EarningsStats(appts, w, today).weekly == SumCosts(Filter(appts, CompletedSince(w, today - 7)))
  {
  }

  /** When every client of the worker has a user row, the join on users drops nothing. */
  lemma JoinIrrelevant(appts: seq<Appointment>, users: seq<User>, w: int, cutoff: int)
    requires forall a :: a in appts && a.workerId == w ==> UserExists(users, a.clientId)
    ensures TotalEarnings(appts, users, w, cutoff) == SumCosts(Filter(appts, CompletedSince(w, cutoff)))
  {
    FilterSame(appts, CompletedSinceJoined(users, w, cutoff), CompletedSince(w, cutoff));
  }
}
