/**
 * The weekly schedule of a worker (`worker_availability`), as
 * `PUT /api/users/worker/availability` writes it, `GET` reads it and
 * `GET .../stats` summarises it.
 *
 * The save is specified by `SaveSlots`, which replays the handler's loop on a
 * value of the table: each payload entry is a select-then-update-or-insert
 * keyed by (worker, day). The lemmas below are what that loop guarantees:
 * an unknown day aborts the whole save, other rows are untouched, each saved
 * day ends up with the values of its last payload entry, keys stay unique and
 * saving the same payload twice changes nothing the second time.
 */
module Schedule {
  import opened Common
  import opened Week
  import opened Schema
  import opened Query

  /** One entry of the `time_slots` body: a Spanish day label and an "HH:MM" window. */
  datatype SlotInput = SlotInput(day: string, enabled: bool, startTime: string, endTime: string)

  /** One entry of the `time_slots` answer; `day` is `undefined` when the stored key is unknown. */
  datatype SlotView = SlotView(day: Option<string>, enabled: bool, startTime: string, endTime: string)

  // ---------------------------------------------------------------- save

  /** `SELECT id FROM worker_availability WHERE worker_id = ? AND day_of_week = ?` finds a row. */
  predicate HasSlot(t: seq<SlotRow>, w: int, key: string)
  {
    exists i :: 0 <= i < |t| && t[i].workerId == w && t[i].day == key
  }

  /** The row carries the enabled flag and window of the payload entry. */
  predicate Holds(row: SlotRow, s: SlotInput)
  {
    row.enabled == s.enabled && row.startTime == s.startTime && row.endTime == s.endTime
  }

  function Stamp(row: SlotRow, s: SlotInput): SlotRow
  {
    row.(enabled := s.enabled, startTime := s.startTime, endTime := s.endTime)
  }

  /** `UPDATE worker_availability SET enabled, start_time, end_time WHERE worker_id = ? AND day_of_week = ?`. */
  function SetSlot(t: seq<SlotRow>, w: int, key: string, s: SlotInput): seq<SlotRow>
  {
    seq(|t|, i requires 0 <= i < |t| => if t[i].workerId == w && t[i].day == key then Stamp(t[i], s) else t[i])
  }

  /**
   * One iteration of the save loop for a known day key: the worker's rows for
   * that day take the entry's values, or one such row is appended.
   */
  function Upsert(t: seq<SlotRow>, w: int, key: string, s: SlotInput): (r: seq<SlotRow>)
    ensures |t| <= |r| <= |t| + 1
    ensures forall i :: 0 <= i < |t| && (t[i].workerId != w || t[i].day != key) ==> r[i] == t[i]
    ensures forall i :: 0 <= i < |r| && r[i].workerId == w && r[i].day == key ==> Holds(r[i], s)
  {
    if HasSlot(t, w, key) then SetSlot(t, w, key, s)
    else t + [SlotRow(w, key, s.enabled, s.startTime, s.endTime)]
  }

  /**
   * The table after the save loop over `p`, or `None` when some entry's day
   * label is unknown (the driver refuses the `undefined` key and the
   * transaction rolls back).
   */
  function SaveSlots(t: seq<SlotRow>, w: int, p: seq<SlotInput>): (r: Option<seq<SlotRow>>)
    ensures r.Some? ==> |t| <= |r.value| <= |t| + |p|
    decreases |p|
  {
    if p == [] then Some(t)
    else
      match ToEnglish(p[0].day)
      case None => None
      case Some(key) => SaveSlots(Upsert(t, w, key, p[0]), w, p[1..])
  }

  predicate AllDaysKnown(p: seq<SlotInput>)
  {
    forall k :: 0 <= k < |p| ==> ToEnglish(p[k].day).Some?
  }

  /** Some payload entry names the day whose key is `key`. */
  predicate DayIn(p: seq<SlotInput>, key: string)
  {
    exists k :: 0 <= k < |p| && ToEnglish(p[k].day) == Some(key)
  }

  /** No two payload entries name the same day. */
  predicate DistinctDays(p: seq<SlotInput>)
  {
    forall j, k :: 0 <= j < k < |p| ==> p[j].day != p[k].day
  }

  /** The last payload entry naming the day `key`: the one whose values a save leaves behind. */
  function LastFor(p: seq<SlotInput>, key: string): (r: Option<SlotInput>)
    ensures r.Some? <==> DayIn(p, key)
    ensures r.Some? ==> r.value in p && ToEnglish(r.value.day) == Some(key)
    ensures r.Some? ==>
      exists k :: 0 <= k < |p| && p[k] == r.value && (forall j :: k < j < |p| ==> ToEnglish(p[j].day) != Some(key))
    decreases |p|
  {
    if p == [] then None
    else
      var rest := LastFor(p[1..], key);
      assert forall k :: 1 <= k < |p| ==> p[k] == p[1..][k - 1];
      if rest.Some? then rest
      else if ToEnglish(p[0].day) == Some(key) then Some(p[0])
      else None
  }

  lemma {:induction false} DayInTail(p: seq<SlotInput>, key: string)
    requires p != []
    ensures DayIn(p, key) <==> ToEnglish(p[0].day) == Some(key) || DayIn(p[1..], key)
  {
    if DayIn(p, key) && ToEnglish(p[0].day) != Some(key) {
      var k :| 0 <= k < |p| && ToEnglish(p[k].day) == Some(key);
      assert p[1..][k - 1] == p[k];
    }
    if DayIn(p[1..], key) {
      var k :| 0 <= k < |p[1..]| && ToEnglish(p[1..][k].day) == Some(key);
      assert p[k + 1] == p[1..][k];
    }
  }

  /** With distinct day labels, every entry is the last one for its day. */
  lemma {:induction false} LastForDistinct(p: seq<SlotInput>, k: int)
    requires DistinctDays(p) && 0 <= k < |p| && ToEnglish(p[k].day).Some?
    ensures LastFor(p, ToEnglish(p[k].day).value) == Some(p[k])
    decreases |p|
  {
    var key := ToEnglish(p[k].day).value;
    var rest := p[1..];
    if k == 0 {
      if DayIn(rest, key) {
        var j :| 0 <= j < |rest| && ToEnglish(rest[j].day) == Some(key);
        DayMapsInverse(key, rest[j].day);
        DayMapsInverse(key, p[0].day);
        assert false;
      }
    } else {
      assert rest[k - 1] == p[k];
      LastForDistinct(rest, k - 1);
    }
  }

  /** A save aborts exactly when some day label is unknown. */
  lemma {:induction false} SaveSlotsFails(t: seq<SlotRow>, w: int, p: seq<SlotInput>)
    ensures SaveSlots(t, w, p).None? <==> !AllDaysKnown(p)
    decreases |p|
  {
    if p != [] {
      var rest := p[1..];
      assert forall k :: 1 <= k < |p| ==> p[k] == rest[k - 1];
      assert AllDaysKnown(p) <==> ToEnglish(p[0].day).Some? && AllDaysKnown(rest);
      match ToEnglish(p[0].day)
      case None =>
      case Some(key) => SaveSlotsFails(Upsert(t, w, key, p[0]), w, rest);
    }
  }

  /** What one upsert changes: only rows of (w, key), plus possibly one new (w, key) row. */
  lemma UpsertFrame(t: seq<SlotRow>, w: int, key: string, s: SlotInput)
    ensures var u := Upsert(t, w, key, s);
      && |t| <= |u| <= |t| + 1
      && (forall i :: 0 <= i < |t| ==> u[i].workerId == t[i].workerId && u[i].day == t[i].day)
      && (forall i :: 0 <= i < |t| && (t[i].workerId != w || t[i].day != key) ==> u[i] == t[i])
      && (forall i :: |t| <= i < |u| ==> u[i].workerId == w && u[i].day == key)
      && (forall i :: 0 <= i < |u| && u[i].workerId == w && u[i].day == key ==> Holds(u[i], s))
      && HasSlot(u, w, key)
  {
    var u := Upsert(t, w, key, s);
    if !HasSlot(t, w, key) {
      assert u[|t|].workerId == w && u[|t|].day == key;
    } else {
      var i :| 0 <= i < |t| && t[i].workerId == w && t[i].day == key;
      assert u[i].workerId == w && u[i].day == key;
    }
  }

  /**
   * A save leaves every row that is not of worker `w` and a payload day
   * exactly as it was, never changes a row's key, and only appends rows of
   * `w` for payload days.
   */
  lemma {:induction false} SaveSlotsFrame(t: seq<SlotRow>, w: int, p: seq<SlotInput>, t': seq<SlotRow>)
    requires SaveSlots(t, w, p) == Some(t')
    ensures |t| <= |t'|
    ensures forall i :: 0 <= i < |t| ==> t'[i].workerId == t[i].workerId && t'[i].day == t[i].day
    ensures forall i :: 0 <= i < |t| && (t[i].workerId != w || !DayIn(p, t[i].day)) ==> t'[i] == t[i]
    ensures forall i :: |t| <= i < |t'| ==> t'[i].workerId == w && DayIn(p, t'[i].day)
    decreases |p|
  {
    if p != [] {
      var key := ToEnglish(p[0].day).value;
      var rest := p[1..];
      var u := Upsert(t, w, key, p[0]);
      UpsertFrame(t, w, key, p[0]);
      SaveSlotsFrame(u, w, rest, t');
      forall d | DayIn(rest, d) || d == key
        ensures DayIn(p, d)
      {
        DayInTail(p, d);
      }
      forall i | 0 <= i < |t| && (t[i].workerId != w || !DayIn(p, t[i].day))
        ensures t'[i] == t[i]
      {
        DayInTail(p, t[i].day);
      }
    }
  }

  /** Saving keeps the table's keys unique and known. */
  lemma {:induction false} SaveSlotsKeepsKeys(t: seq<SlotRow>, w: int, p: seq<SlotInput>, t': seq<SlotRow>)
    requires SlotKeysUnique(t) && SlotDaysKnown(t)
    requires SaveSlots(t, w, p) == Some(t')
    ensures SlotKeysUnique(t') && SlotDaysKnown(t')
    decreases |p|
  {
    if p != [] {
      var key := ToEnglish(p[0].day).value;
      var u := Upsert(t, w, key, p[0]);
      UpsertFrame(t, w, key, p[0]);
      if !HasSlot(t, w, key) {
        forall i, j | 0 <= i < j < |u|
          ensures u[i].workerId != u[j].workerId || u[i].day != u[j].day
        {
          if j == |t| {
            assert !(t[i].workerId == w && t[i].day == key);
          }
        }
      }
      SaveSlotsKeepsKeys(u, w, p[1..], t');
    }
  }

  /**
   * After a save, every payload day has a row for the worker, and every row
   * for that (worker, day) holds the values of the day's last payload entry.
   */
  lemma {:induction false} SaveSlotsStoresLast(t: seq<SlotRow>, w: int, p: seq<SlotInput>, t': seq<SlotRow>, key: string)
    requires SaveSlots(t, w, p) == Some(t')
    requires DayIn(p, key)
    ensures HasSlot(t', w, key)
    ensures forall i :: 0 <= i < |t'| && t'[i].workerId == w && t'[i].day == key ==> Holds(t'[i], LastFor(p, key).value)
    decreases |p|
  {
    var key0 := ToEnglish(p[0].day).value;
    var rest := p[1..];
    var u := Upsert(t, w, key0, p[0]);
    DayInTail(p, key);
    if DayIn(rest, key) {
      SaveSlotsStoresLast(u, w, rest, t', key);
    } else {
      assert key == key0;
      UpsertFrame(t, w, key0, p[0]);
      SaveSlotsFrame(u, w, rest, t');
      var i :| 0 <= i < |u| && u[i].workerId == w && u[i].day == key;
      assert t'[i].workerId == w && t'[i].day == key;
    }
  }

  /** A save that only touches existing rows rewrites each of them with its day's last entry. */
  function Overwrite(t: seq<SlotRow>, w: int, p: seq<SlotInput>): seq<SlotRow>
  {
    seq(|t|, i requires 0 <= i < |t| =>
      if t[i].workerId == w && LastFor(p, t[i].day).Some? then Stamp(t[i], LastFor(p, t[i].day).value) else t[i])
  }

  /** An upsert never removes a (worker, day) row. */
  lemma UpsertKeepsSlot(t: seq<SlotRow>, w: int, key: string, s: SlotInput, d: string)
    requires HasSlot(t, w, d)
    ensures HasSlot(Upsert(t, w, key, s), w, d)
  {
    UpsertFrame(t, w, key, s);
    var i :| 0 <= i < |t| && t[i].workerId == w && t[i].day == d;
    assert Upsert(t, w, key, s)[i].workerId == w;
  }

  /** Overwriting with `p` is overwriting with its first entry, then with the rest. */
  lemma OverwriteStep(t: seq<SlotRow>, w: int, p: seq<SlotInput>, key: string)
    requires p != [] && ToEnglish(p[0].day) == Some(key)
    ensures Overwrite(SetSlot(t, w, key, p[0]), w, p[1..]) == Overwrite(t, w, p)
  {
    var u := SetSlot(t, w, key, p[0]);
    var rest := p[1..];
    forall i | 0 <= i < |t|
      ensures Overwrite(u, w, rest)[i] == Overwrite(t, w, p)[i]
    {
      var d := t[i].day;
      assert u[i].day == d && u[i].workerId == t[i].workerId;
      var later := LastFor(rest, d);
      assert LastFor(p, d) == if later.Some? then later else if ToEnglish(p[0].day) == Some(d) then Some(p[0]) else None;
    }
  }

  lemma {:induction false} SaveSlotsCovered(t: seq<SlotRow>, w: int, p: seq<SlotInput>)
    requires AllDaysKnown(p)
    requires forall k :: 0 <= k < |p| ==> HasSlot(t, w, ToEnglish(p[k].day).value)
    ensures SaveSlots(t, w, p) == Some(Overwrite(t, w, p))
    decreases |p|
  {
    if p == [] {
      assert Overwrite(t, w, p) == t;
    } else {
      var key := ToEnglish(p[0].day).value;
      var rest := p[1..];
      assert HasSlot(t, w, key);
      var u := Upsert(t, w, key, p[0]);
      forall k | 0 <= k < |rest|
        ensures ToEnglish(rest[k].day).Some? && HasSlot(u, w, ToEnglish(rest[k].day).value)
      {
        assert rest[k] == p[k + 1];
        UpsertKeepsSlot(t, w, key, p[0], ToEnglish(rest[k].day).value);
      }
      SaveSlotsCovered(u, w, rest);
      OverwriteStep(t, w, p, key);
    }
  }

  /** Saving the same payload a second time leaves the table as the first save left it. */
  lemma SaveSlotsIdempotent(t: seq<SlotRow>, w: int, p: seq<SlotInput>, t': seq<SlotRow>)
    requires SaveSlots(t, w, p) == Some(t')
    ensures SaveSlots(t', w, p) == Some(t')
  {
    SaveSlotsFails(t, w, p);
    forall k | 0 <= k < |p|
      ensures HasSlot(t', w, ToEnglish(p[k].day).value)
    {
      SaveSlotsStoresLast(t, w, p, t', ToEnglish(p[k].day).value);
    }
    SaveSlotsCovered(t', w, p);
    forall i | 0 <= i < |t'|
      ensures Overwrite(t', w, p)[i] == t'[i]
    {
      if t'[i].workerId == w && LastFor(p, t'[i].day).Some? {
        SaveSlotsStoresLast(t, w, p, t', t'[i].day);
      }
    }
    assert Overwrite(t', w, p) == t';
  }

  // ---------------------------------------------------------------- read

  /** `time ? time.substring(0, 5) : fallback`. */
  function CutTime(time: string, fallback: string): (r: string)
    ensures time == "" ==> r == fallback
    ensures time != "" ==> |r| <= 5 && r <= time
    ensures 0 < |time| <= 5 ==> r == time
    ensures |time| > 5 ==> r == time[..5]
  {
    if time == "" then fallback
    else if |time| <= 5 then time
    else time[..5]
  }

  function ViewOf(row: SlotRow): SlotView
  {
    SlotView(ToSpanish(row.day), row.enabled, CutTime(row.startTime, "09:00"), CutTime(row.endTime, "18:00"))
  }

  function OfWorker(w: int): SlotRow -> bool
  {
    (row: SlotRow) => row.workerId == w
  }

  /** The seven slots shown to a worker who has never saved a schedule. */
  function DefaultSlots(): (r: seq<SlotView>)
    ensures |r| == 7
    ensures forall i :: 0 <= i < 7 ==> r[i].day == Some(SpanishLabels[i])
    ensures forall i :: 0 <= i < 5 ==> r[i].enabled && r[i].startTime == "09:00" && r[i].endTime == "18:00"
    ensures forall i :: 5 <= i < 7 ==> !r[i].enabled && r[i].startTime == "10:00" && r[i].endTime == "14:00"
  {
    [ SlotView(Some("Lunes"), true, "09:00", "18:00"),
      SlotView(Some("Martes"), true, "09:00", "18:00"),
      SlotView(Some("Miércoles"), true, "09:00", "18:00"),
      SlotView(Some("Jueves"), true, "09:00", "18:00"),
      SlotView(Some("Viernes"), true, "09:00", "18:00"),
      SlotView(Some("Sábado"), false, "10:00", "14:00"),
      SlotView(Some("Domingo"), false, "10:00", "14:00") ]
  }

  /** The `time_slots` the read handler answers: the defaults, or one view per stored row. */
  function SlotsFor(t: seq<SlotRow>, w: int): (r: seq<SlotView>)
    ensures Filter(t, OfWorker(w)) == [] ==> r == DefaultSlots()
    ensures Filter(t, OfWorker(w)) != [] ==>
      |r| == |Filter(t, OfWorker(w))| && forall i :: 0 <= i < |r| ==> r[i] == ViewOf(Filter(t, OfWorker(w))[i])
  {
    var rows := Filter(t, OfWorker(w));
    if rows == [] then DefaultSlots()
    else seq(|rows|, i requires 0 <= i < |rows| => ViewOf(rows[i]))
  }

  /**
   * Save then read: with distinct day labels and "HH:MM" times, the read
   * answers each saved entry back exactly, under its own Spanish label.
   */
  lemma SaveThenRead(t: seq<SlotRow>, w: int, p: seq<SlotInput>, t': seq<SlotRow>, k: int)
    requires SaveSlots(t, w, p) == Some(t')
    requires DistinctDays(p) && 0 <= k < |p|
    requires |p[k].startTime| == 5 && |p[k].endTime| == 5
    ensures SlotView(Some(p[k].day), p[k].enabled, p[k].startTime, p[k].endTime) in SlotsFor(t', w)
  {
    SaveSlotsFails(t, w, p);
    var key := ToEnglish(p[k].day).value;
    assert DayIn(p, key);
    LastForDistinct(p, k);
    SaveSlotsStoresLast(t, w, p, t', key);
    var i :| 0 <= i < |t'| && t'[i].workerId == w && t'[i].day == key;
    DayMapsInverse(key, p[k].day);
    var rows := Filter(t', OfWorker(w));
    assert t'[i] in rows;
    var j :| 0 <= j < |rows| && rows[j] == t'[i];
    assert SlotsFor(t', w)[j] == ViewOf(t'[i]);
  }

  // ---------------------------------------------------------------- stats

  function EnabledOf(w: int): SlotRow -> bool
  {
    (row: SlotRow) => row.workerId == w && row.enabled
  }

  /** `SELECT COUNT(*) ... WHERE worker_id = ? AND enabled = true`. */
  function ActiveDays(t: seq<SlotRow>, w: int): nat
  {
    |Filter(t, EnabledOf(w))|
  }

  /**
   * `Math.round((activeDays / 7) * 100)`. Its contract is the definition of
   * rounding half up: the result is within one half of 100 * activeDays / 7.
   */
  function AvailabilityPercentage(activeDays: int): (r: int)
    ensures 7 * (2 * r - 1) <= 200 * activeDays < 7 * (2 * r + 1)
  {
    (200 * activeDays + 7) / 14
  }

  function EnabledDaySet(t: seq<SlotRow>, w: int): set<string>
  {
    set i | 0 <= i < |t| && t[i].workerId == w && t[i].enabled :: t[i].day
  }

  lemma {:induction false} ActiveDaysCountsDays(t: seq<SlotRow>, w: int)
    requires SlotKeysUnique(t)
    ensures ActiveDays(t, w) == |EnabledDaySet(t, w)|
    decreases |t|
  {
    if t != [] {
      var init, last := t[..|t| - 1], t[|t| - 1];
      assert t == init + [last];
      FilterAppend(init, last, EnabledOf(w));
      ActiveDaysCountsDays(init, w);
      EnabledDaySetAppend(init, last, w);
      if last.workerId == w && last.enabled {
        assert last.day !in EnabledDaySet(init, w);
      }
    }
  }

  lemma EnabledDaySetAppend(init: seq<SlotRow>, last: SlotRow, w: int)
    ensures EnabledDaySet(init + [last], w)
      == EnabledDaySet(init, w) + (if last.workerId == w && last.enabled then {last.day} else {})
  {
    var t := init + [last];
    var extra: set<string> := if last.workerId == w && last.enabled then {last.day} else {};
    forall d
      ensures d in EnabledDaySet(t, w) <==> d in EnabledDaySet(init, w) + extra
    {
      if d in EnabledDaySet(t, w) {
        var i :| 0 <= i < |t| && t[i].workerId == w && t[i].enabled && t[i].day == d;
        if i < |init| {
          assert init[i] == t[i];
        }
      }
      if d in EnabledDaySet(init, w) {
        var i :| 0 <= i < |init| && init[i].workerId == w && init[i].enabled && init[i].day == d;
        assert t[i] == init[i];
      }
      if d in extra {
        assert t[|init|] == last;
      }
    }
  }

  lemma SubsetCard(a: set<string>, b: set<string>)
    requires a <= b
    ensures |a| <= |b|
  {
    assert b == a + (b - a);
  }

  /** A sequence has no more distinct elements than positions. */
  lemma {:induction false} SeqSetCard(s: seq<string>)
    ensures |set x | x in s| <= |s|
  {
    if s != [] {
      SeqSetCard(s[1..]);
      assert (set x | x in s) == (set x | x in s[1..]) + {s[0]};
    }
  }

  /**
   * On a table with unique known keys a worker has at most seven enabled
   * rows, so the percentage the stats endpoint answers lies in [0, 100].
   */
  lemma ActiveDaysBounded(t: seq<SlotRow>, w: int)
    requires SlotKeysUnique(t) && SlotDaysKnown(t)
    ensures ActiveDays(t, w) <= 7
    ensures 0 <= AvailabilityPercentage(ActiveDays(t, w)) <= 100
  {
    ActiveDaysCountsDays(t, w);
    var keys := set x | x in EnglishKeys;
    SeqSetCard(EnglishKeys);
    SubsetCard(EnabledDaySet(t, w), keys);
  }

  // ---------------------------------------------------------------- handlers

  /** What `GET /worker/availability` answers. */
  datatype AvailabilityView = AvailabilityView(immediateService: bool, timeSlots: seq<SlotView>, coverageRadius: int)

  /** `GET /worker/availability`: 404 without a worker row; never writes the defaults it shows. */
  function ReadAvailability(workers: map<int, WorkerProfile>, t: seq<SlotRow>, w: int): (r: Outcome<AvailabilityView>)
    ensures r.Ok? || r.NotFound?
    ensures r.NotFound? <==> w !in workers
    ensures r.Ok? ==> (r.value.immediateService <==> workers[w].immediateService == Some(true))
    ensures r.Ok? && NonZero(workers[w].coverageRadius) ==> r.value.coverageRadius == workers[w].coverageRadius.value
    ensures r.Ok? && !NonZero(workers[w].coverageRadius) ==> r.value.coverageRadius == 15
    ensures r.Ok? ==> r.value.timeSlots == SlotsFor(t, w)
  {
    if w !in workers then NotFound
    else
      var row := workers[w];
      Ok(AvailabilityView(
        row.immediateService == Some(true),
        SlotsFor(t, w),
        if NonZero(row.coverageRadius) then row.coverageRadius.value else 15))
  }

  /**
   * `PUT /worker/availability` for the caller `w`: inside one transaction,
   * update the worker row's `immediate_service` and `coverage_radius` (a
   * no-op without a row), then upsert one schedule row per payload entry.
   * The driver refuses an undefined bind parameter, so an absent flag or
   * radius, an absent `time_slots` or an unknown day label aborts the save
   * and rolls both tables back.
   */
  method SaveAvailability(db: Db, w: int, immediate: Patch<Option<bool>>, slots: Option<seq<SlotInput>>, radius: Patch<Option<int>>)
    returns (out: Outcome<seq<SlotInput>>)
    requires db.Valid()
    modifies db`workers, db`slots
    ensures db.Valid()
    ensures out.Ok? || out.ServerError?
    ensures out.Ok? <==> immediate.Set? && radius.Set? && slots.Some? && AllDaysKnown(slots.value)
    ensures out.ServerError? ==> db.workers == old(db.workers) && db.slots == old(db.slots)
    ensures out.Ok? ==>
      && out.value == slots.value
      && db.workers == (if w in old(db.workers)
                        then old(db.workers)[w := old(db.workers)[w].(immediateService := immediate.value, coverageRadius := radius.value)]
                        else old(db.workers))
      && SaveSlots(old(db.slots), w, slots.value) == Some(db.slots)
  {
    var workersBefore, slotsBefore := db.workers, db.slots;
    // UPDATE workers SET immediate_service = ?, coverage_radius = ?
    if immediate.Keep? || radius.Keep? {
      return ServerError;
    }
    if w in db.workers {
      db.workers := db.workers[w := db.workers[w].(immediateService := immediate.value, coverageRadius := radius.value)];
    }
    if slots.None? {
      db.workers := workersBefore;  // ROLLBACK
      return ServerError;
    }
    var saved := UpsertSlots(db, w, slots.value);
    if !saved {
      db.workers := workersBefore;  // ROLLBACK
      return ServerError;
    }
    SaveSlotsKeepsKeys(slotsBefore, w, slots.value, db.slots);
    out := Ok(slots.value);
  }

  /**
   * The `for (const slot of time_slots)` loop of the save: select-then-update-
   * or-insert per entry. An unknown day label ends it with the schedule
   * rolled back.
   */
  method UpsertSlots(db: Db, w: int, p: seq<SlotInput>) returns (saved: bool)
    modifies db`slots
    ensures saved <==> AllDaysKnown(p)
    ensures saved ==> SaveSlots(old(db.slots), w, p) == Some(db.slots)
    ensures !saved ==> db.slots == old(db.slots)
  {
    var slotsBefore := db.slots;
    var i := 0;
    while i < |p|
      invariant 0 <= i <= |p|
      invariant forall k :: 0 <= k < i ==> ToEnglish(p[k].day).Some?
      invariant SaveSlots(slotsBefore, w, p) == SaveSlots(db.slots, w, p[i..])
    {
      var key := ToEnglish(p[i].day);
      if key.None? {
        db.slots := slotsBefore;  // ROLLBACK
        return false;
      }
      assert p[i..][0] == p[i] && p[i..][1..] == p[i + 1..];
      if HasSlot(db.slots, w, key.value) {
        db.slots := SetSlot(db.slots, w, key.value, p[i]);
      } else {
        db.slots := db.slots + [SlotRow(w, key.value, p[i].enabled, p[i].startTime, p[i].endTime)];
      }
      i := i + 1;
    }
    assert p[i..] == [];
    return true;
  }

  /** What `GET /worker/availability/stats` answers (weekly hours are not part of this model). */
  datatype AvailabilityStats = AvailabilityStats(activeDays: nat, percentage: int)

  /** `GET /worker/availability/stats`: on a valid table, at most seven days and a percentage in [0, 100]. */
  function AvailabilityStatsOf(t: seq<SlotRow>, w: int): (r: AvailabilityStats)
    ensures 7 * (2 * r.percentage - 1) <= 200 * r.activeDays < 7 * (2 * r.percentage + 1)
    ensures SlotKeysUnique(t) && SlotDaysKnown(t) ==> r.activeDays <= 7 && 0 <= r.percentage <= 100
    ensures SlotKeysUnique(t) ==> r.activeDays == |EnabledDaySet(t, w)|
  {
    ActiveDaysFacts(t, w);
    AvailabilityStats(ActiveDays(t, w), AvailabilityPercentage(ActiveDays(t, w)))
  }

  lemma ActiveDaysFacts(t: seq<SlotRow>, w: int)
    ensures SlotKeysUnique(t) ==> ActiveDays(t, w) == |EnabledDaySet(t, w)|
    ensures SlotKeysUnique(t) && SlotDaysKnown(t) ==> ActiveDays(t, w) <= 7
  {
    if SlotKeysUnique(t) {
      ActiveDaysCountsDays(t, w);
      if SlotDaysKnown(t) {
        ActiveDaysBounded(t, w);
      }
    }
  }
}
