/**
  * The record store (`DataManager`): an ordered array of records that the
  * app edits in place, the key-value slot it is saved to, and the day and
  * month queries and the monthly statistics computed from it.
  */
module Store {
  import opened Wrappers
  import opened Sequences
  import opened Calendar
  import opened PoopRecords

  /** No two records of the array share an id. */
  ghost predicate DistinctIds(records: seq<PoopRecord>)
  {
    forall i, j :: 0 <= i < j < |records| ==> records[i].id != records[j].id
  }

  /** `k` is what `records.firstIndex(where: { $0.id == id })` finds. */
  predicate IsFirstIndexOfId(records: seq<PoopRecord>, id: Uuid, k: int)
  {
    0 <= k < |records| && records[k].id == id && forall j :: 0 <= j < k ==> records[j].id != id
  }

  /** `records.firstIndex(where: { $0.id == id })`: a linear search from the front. */
  method FirstIndexOfId(records: seq<PoopRecord>, id: Uuid) returns (index: Option<nat>)
    ensures index.None? <==> forall x :: x in records ==> x.id != id
    ensures index.Some? ==> IsFirstIndexOfId(records, id, index.value)
  {
    var i := 0;
    while i < |records|
      invariant 0 <= i <= |records|
      invariant forall j :: 0 <= j < i ==> records[j].id != id
    {
      if records[i].id == id {
        return Some(i);
      }
      i := i + 1;
    }
    return None;
  }

  // ---------------------------------------------------------------------
  // The edits behind updateRecord and deleteRecord, as functions of the array

  /**
    * The array after `records[index] = record` at the first index whose id is
    * `record.id`, or the array itself when there is no such index.
    */
  function ReplacingFirstId(records: seq<PoopRecord>, record: PoopRecord): (r: seq<PoopRecord>)
    ensures |r| == |records|
    ensures forall i :: 0 <= i < |r| ==> r[i].id == records[i].id
    decreases |records|
  {
    if records == [] then []
    else if records[0].id == record.id then [record] + records[1..]
    else [records[0]] + ReplacingFirstId(records[1..], record)
  }

  /** An update whose id is not in the array leaves the array exactly as it was. */
  lemma {:induction false} ReplacingAbsentIdChangesNothing(records: seq<PoopRecord>, record: PoopRecord)
    requires forall x :: x in records ==> x.id != record.id
    ensures ReplacingFirstId(records, record) == records
    decreases |records|
  {
    if records != [] {
      ReplacingAbsentIdChangesNothing(records[1..], record);
    }
  }

  /** An update whose id is in the array overwrites the first index with that id and nothing else. */
  lemma {:induction false} ReplacingWritesFirstIndex(records: seq<PoopRecord>, record: PoopRecord, k: int)
    requires IsFirstIndexOfId(records, record.id, k)
    ensures ReplacingFirstId(records, record) == records[k := record]
    decreases |records|
  {
    if k > 0 {
      ReplacingWritesFirstIndex(records[1..], record, k - 1);
      assert records[k := record] == [records[0]] + records[1..][k - 1 := record];
    }
  }

  /** `records.removeAll { $0.id == id }`. */
  function RemovingId(records: seq<PoopRecord>, id: Uuid): (r: seq<PoopRecord>)
    ensures forall x :: x in r <==> x in records && x.id != id
  {
    Filter(records, (x: PoopRecord) => x.id != id)
  }

  /** Deleting keeps every record with another id, each as often as before and in the same relative order. */
  lemma RemovingIdKeepsOthersInOrder(records: seq<PoopRecord>, id: Uuid)
    ensures IsSubsequence(RemovingId(records, id), records)
    ensures forall x :: multiset(RemovingId(records, id))[x] == if x.id != id then multiset(records)[x] else 0
  {
    FilterIsSubsequence(records, (x: PoopRecord) => x.id != id);
    FilterMultiplicity(records, (x: PoopRecord) => x.id != id);
  }

  /** Deleting an id that is not in the array leaves the array exactly as it was. */
  lemma RemovingAbsentIdChangesNothing(records: seq<PoopRecord>, id: Uuid)
    requires forall x :: x in records ==> x.id != id
    ensures RemovingId(records, id) == records
  {
    FilterKeepsAll(records, (x: PoopRecord) => x.id != id);
  }

  // ---------------------------------------------------------------------
  // Distinct ids: kept by update and delete, and by add exactly when the new id is fresh

  lemma AppendKeepsDistinctIds(records: seq<PoopRecord>, record: PoopRecord)
    ensures DistinctIds(records + [record]) <==> DistinctIds(records) && forall x :: x in records ==> x.id != record.id
  {
    var s := records + [record];
    assert forall i :: 0 <= i < |records| ==> s[i] == records[i];
    assert s[|records|] == record;
    if DistinctIds(s) {
      forall x | x in records
        ensures x.id != record.id
      {
        var i :| 0 <= i < |records| && records[i] == x;
        assert s[i] == x && s[|records|] == record;
      }
    }
  }

  lemma ReplacingKeepsDistinctIds(records: seq<PoopRecord>, record: PoopRecord)
    requires DistinctIds(records)
    ensures DistinctIds(ReplacingFirstId(records, record))
  {
  }

  /** A subsequence of an array with distinct ids has distinct ids. */
  lemma {:induction false} SubsequenceKeepsDistinctIds(r: seq<PoopRecord>, s: seq<PoopRecord>)
    requires IsSubsequence(r, s)
    requires DistinctIds(s)
    ensures DistinctIds(r)
    decreases |s|
  {
    if r != [] && s != [] {
      assert DistinctIds(s[1..]) by {
        forall i, j | 0 <= i < j < |s[1..]|
          ensures s[1..][i].id != s[1..][j].id
        {
          assert s[1..][i] == s[i + 1] && s[1..][j] == s[j + 1];
        }
      }
      if r[0] == s[0] && IsSubsequence(r[1..], s[1..]) {
        SubsequenceKeepsDistinctIds(r[1..], s[1..]);
        SubsequenceMembers(r[1..], s[1..]);
        forall i, j | 0 <= i < j < |r|
          ensures r[i].id != r[j].id
        {
          assert r[j] == r[1..][j - 1];
          if i == 0 {
            assert r[j] in s[1..];
            var m :| 0 <= m < |s[1..]| && s[1..][m] == r[j];
            assert s[m + 1] == r[j];
          } else {
            assert r[i] == r[1..][i - 1];
          }
        }
      } else {
        SubsequenceKeepsDistinctIds(r, s[1..]);
      }
    }
  }

  lemma RemovingKeepsDistinctIds(records: seq<PoopRecord>, id: Uuid)
    requires DistinctIds(records)
    ensures DistinctIds(RemovingId(records, id))
  {
    RemovingIdKeepsOthersInOrder(records, id);
    SubsequenceKeepsDistinctIds(RemovingId(records, id), records);
  }

  // ---------------------------------------------------------------------
  // Queries: getRecords(for:), getDailyRecord(for:), getRecords(forMonth:)

  /** `getRecords(for: date)`: the records of the calendar day of `date`, in store order. */
  function RecordsOnDay(records: seq<PoopRecord>, date: Date): (r: seq<PoopRecord>)
    ensures forall x :: x in r <==> x in records && SameDay(x.date, date)
  {
    Filter(records, (x: PoopRecord) => SameDay(x.date, date))
  }

  /** The day's records are exactly those of the array on that day, in store order and with their multiplicity. */
  lemma RecordsOnDayIsExactSubsequence(records: seq<PoopRecord>, date: Date)
    ensures IsSubsequence(RecordsOnDay(records, date), records)
    ensures forall x :: multiset(RecordsOnDay(records, date))[x] == if SameDay(x.date, date) then multiset(records)[x] else 0
  {
    FilterIsSubsequence(records, (x: PoopRecord) => SameDay(x.date, date));
    FilterMultiplicity(records, (x: PoopRecord) => SameDay(x.date, date));
  }

  /** One more record adds one to the count of its own day only. */
  lemma RecordsOnDayAppend(records: seq<PoopRecord>, last: PoopRecord, date: Date)
    ensures RecordsOnDay(records + [last], date) == RecordsOnDay(records, date) + (if SameDay(last.date, date) then [last] else [])
  {
    FilterAppend(records, [last], (x: PoopRecord) => SameDay(x.date, date));
  }

  /** `getDailyRecord(for: date)`: the day's summary, or `nil` when the day has no records. */
  function DailyRecordFor(records: seq<PoopRecord>, date: Date): (r: Option<DailyRecord>)
    ensures r.None? <==> forall x :: x in records ==> !SameDay(x.date, date)
    ensures r.Some? ==> r.value.date == date && r.value.records == RecordsOnDay(records, date) && r.value.TotalCount() > 0
  {
    var dayRecords := RecordsOnDay(records, date);
    assert dayRecords != [] ==> dayRecords[0] in dayRecords;
    if dayRecords == [] then None else Some(DailyRecord(date, dayRecords))
  }

  /** `getRecords(forMonth: month)`: the records whose year and month are those of `month`, in store order. */
  function RecordsInMonth(records: seq<PoopRecord>, month: Date): (r: seq<PoopRecord>)
    ensures forall x :: x in r <==> x in records && SameMonth(x.date, month)
  {
    Filter(records, (x: PoopRecord) => SameMonth(x.date, month))
  }

  /** The month's records are exactly those of the array in that month, in store order and with their multiplicity. */
  lemma RecordsInMonthIsExactSubsequence(records: seq<PoopRecord>, month: Date)
    ensures IsSubsequence(RecordsInMonth(records, month), records)
    ensures forall x :: multiset(RecordsInMonth(records, month))[x] == if SameMonth(x.date, month) then multiset(records)[x] else 0
  {
    FilterIsSubsequence(records, (x: PoopRecord) => SameMonth(x.date, month));
    FilterMultiplicity(records, (x: PoopRecord) => SameMonth(x.date, month));
  }

  /** The records of a day of the month are the records of that day within the month's records. */
  lemma DayWithinMonth(records: seq<PoopRecord>, date: Date, month: Date)
    requires SameMonth(date, month)
    ensures RecordsOnDay(RecordsInMonth(records, month), date) == RecordsOnDay(records, date)
    ensures IsSubsequence(RecordsOnDay(records, date), RecordsInMonth(records, month))
  {
    FilterNarrowing(records, (x: PoopRecord) => SameMonth(x.date, month), (x: PoopRecord) => SameDay(x.date, date));
    RecordsOnDayIsExactSubsequence(RecordsInMonth(records, month), date);
  }

  /** A record is in the month's list exactly when it is in the list of some day of that month. */
  lemma MonthIsUnionOfDays(records: seq<PoopRecord>, month: Date)
    ensures forall x :: x in RecordsInMonth(records, month) <==>
      exists date: Date :: SameMonth(date, month) && x in RecordsOnDay(records, date)
  {
    forall x | x in RecordsInMonth(records, month)
      ensures exists date: Date :: SameMonth(date, month) && x in RecordsOnDay(records, date)
    {
      assert x in RecordsOnDay(records, x.date);
    }
  }

  // ---------------------------------------------------------------------
  // getMonthlyStats(for:)

  /**
    * `MonthlyStats`. Counts are Swift `Int`s that are never negative; the
    * average is the exact quotient that the Swift code computes in `Double`.
    */
  datatype MonthlyStats = MonthlyStats(
    month: Date,
    totalCount: nat,
    daysWithPoop: nat,
    totalDays: nat,
    averagePerDay: real,
    sizeDistribution: map<PoopSize, nat>)

  /** The distinct days (as their midnights) on which some of the records fall. */
  function DaysWithRecords(records: seq<PoopRecord>): (days: set<Date>)
    ensures forall d :: d in days ==> d.seconds == 0
  {
    set x | x in records :: StartOfDay(x.date)
  }

  lemma DaysWithRecordsAppend(records: seq<PoopRecord>, last: PoopRecord)
    ensures DaysWithRecords(records + [last]) == DaysWithRecords(records) + {StartOfDay(last.date)}
  {
    assert forall x :: x in records + [last] <==> x in records || x == last;
  }

  /** There are never more distinct days than records. */
  lemma {:induction false} DaysWithRecordsAtMostRecords(records: seq<PoopRecord>)
    ensures |DaysWithRecords(records)| <= |records|
    decreases |records|
  {
    if records != [] {
      var init := records[..|records| - 1];
      var last := records[|records| - 1];
      assert records == init + [last];
      DaysWithRecordsAppend(init, last);
      DaysWithRecordsAtMostRecords(init);
    }
  }

  /**
    * The `sizeDistribution` dictionary after counting the records in order,
    * starting from a zero for each size, with `sizeDistribution[size, default: 0] += 1`.
    */
  function SizeDistribution(records: seq<PoopRecord>): map<PoopSize, nat>
    decreases |records|
  {
    if records == [] then map[Small := 0, Medium := 0, Large := 0]
    else
      var counts := SizeDistribution(records[..|records| - 1]);
      var size := records[|records| - 1].size;
      counts[size := (if size in counts then counts[size] else 0) + 1]
  }

  /** Each entry of `sizeDistribution` is the number of records of that size, and there is one entry per size. */
  lemma {:induction false} SizeDistributionCounts(records: seq<PoopRecord>)
    ensures SizeDistribution(records).Keys == {Small, Medium, Large}
    ensures forall size :: size in SizeDistribution(records) && SizeDistribution(records)[size] == CountSize(records, size)
    decreases |records|
  {
    if records != [] {
      var init, last := records[..|records| - 1], records[|records| - 1];
      assert records == init + [last];
      SizeDistributionCounts(init);
      forall size: PoopSize
        ensures size in SizeDistribution(records) && SizeDistribution(records)[size] == CountSize(records, size)
      {
        CountSizeAppend(init, last, size);
      }
    } else {
      forall size: PoopSize
        ensures size in SizeDistribution(records) && SizeDistribution(records)[size] == CountSize(records, size)
      {
        assert size == Small || size == Medium || size == Large;
      }
    }
  }

  /**
    * The `dailyCounts` dictionary after counting the records in order with
    * `dailyCounts[startOfDay, default: 0] += 1`.
    */
  function DailyCounts(records: seq<PoopRecord>): map<Date, nat>
    decreases |records|
  {
    if records == [] then map[]
    else
      var counts := DailyCounts(records[..|records| - 1]);
      var day := StartOfDay(records[|records| - 1].date);
      counts[day := (if day in counts then counts[day] else 0) + 1]
  }

  /** The days of `dailyCounts` are exactly the days on which some record falls. */
  lemma {:induction false} DailyCountsKeys(records: seq<PoopRecord>)
    ensures DailyCounts(records).Keys == DaysWithRecords(records)
    decreases |records|
  {
    if records != [] {
      var init, last := records[..|records| - 1], records[|records| - 1];
      assert records == init + [last];
      DailyCountsKeys(init);
      DaysWithRecordsAppend(init, last);
    }
  }

  /** For every midnight, `dailyCounts` (0 when absent) is the number of records of that day. */
  lemma {:induction false} DailyCountsValues(records: seq<PoopRecord>)
    ensures forall day: Date :: day.seconds == 0 ==>
      (if day in DailyCounts(records) then DailyCounts(records)[day] else 0) == |RecordsOnDay(records, day)|
    decreases |records|
  {
    if records != [] {
      var init, last := records[..|records| - 1], records[|records| - 1];
      assert records == init + [last];
      DailyCountsValues(init);
      forall day: Date | day.seconds == 0
        ensures (if day in DailyCounts(records) then DailyCounts(records)[day] else 0) == |RecordsOnDay(records, day)|
      {
        RecordsOnDayAppend(init, last, day);
      }
    }
  }

  /** The statistics `getMonthlyStats(for: month)` returns, stated as a function of the array. */
  function MonthlyStatsOf(records: seq<PoopRecord>, month: Date): MonthlyStats
  {
    var monthRecords := RecordsInMonth(records, month);
    var totalCount := |monthRecords|;
    var totalDays := DaysInMonth(month.year, month.month);
    MonthlyStats(
      month,
      totalCount,
      |DaysWithRecords(monthRecords)|,
      totalDays,
      if totalDays > 0 then totalCount as real / totalDays as real else 0.0,
      SizeDistribution(monthRecords))
  }

  /** The size distribution of the month has an entry for each size, and the entries add up to the total. */
  lemma DistributionAddsUpToTotal(records: seq<PoopRecord>, month: Date)
    ensures var stats := MonthlyStatsOf(records, month);
      && stats.totalCount == |RecordsInMonth(records, month)|
      && stats.sizeDistribution.Keys == {Small, Medium, Large}
      && stats.sizeDistribution[Small] + stats.sizeDistribution[Medium] + stats.sizeDistribution[Large] == stats.totalCount
  {
    CountsSumToLength(RecordsInMonth(records, month));
    SizeDistributionCounts(RecordsInMonth(records, month));
  }

  /** The number of days with records is at most the number of records and at most the length of the month. */
  lemma DaysWithPoopBounded(records: seq<PoopRecord>, month: Date)
    ensures var stats := MonthlyStatsOf(records, month);
      && stats.daysWithPoop <= stats.totalCount
      && stats.daysWithPoop <= stats.totalDays
      && 28 <= stats.totalDays <= 31
  {
    var monthRecords := RecordsInMonth(records, month);
    DaysWithRecordsAtMostRecords(monthRecords);
    var days := DaysWithRecords(monthRecords);
    forall d | d in days
      ensures d.year == month.year && d.month == month.month && d.seconds == 0
    {
      var x :| x in monthRecords && StartOfDay(x.date) == d;
    }
    MidnightsInMonthBound(days, month.year, month.month);
  }

  /** The average per day times the length of the month is the total. */
  lemma AveragePerDayScalesToTotal(records: seq<PoopRecord>, month: Date)
    ensures var stats := MonthlyStatsOf(records, month);
      stats.averagePerDay * stats.totalDays as real == stats.totalCount as real
  {
  }

  /** A month without records has all counts and the average at zero. */
  lemma EmptyMonthStats(records: seq<PoopRecord>, month: Date)
    requires forall x :: x in records ==> !SameMonth(x.date, month)
    ensures var stats := MonthlyStatsOf(records, month);
      && stats.totalCount == 0
      && stats.daysWithPoop == 0
      && stats.averagePerDay == 0.0
      && stats.sizeDistribution == map[Small := 0, Medium := 0, Large := 0]
  {
    var monthRecords := RecordsInMonth(records, month);
    assert DaysWithRecords(monthRecords) == {};
  }

  /**
    * The loop of `getMonthlyStats`: one pass over the records that counts them
    * per day (`dailyCounts`, keyed by the day's midnight) and per size
    * (`sizeDistribution`, which starts with a zero for each size).
    */
  method TallyRecords(records: seq<PoopRecord>) returns (dailyCounts: map<Date, nat>, sizeDistribution: map<PoopSize, nat>)
    ensures dailyCounts == DailyCounts(records)
    ensures sizeDistribution == SizeDistribution(records)
  {
    dailyCounts := map[];
    sizeDistribution := map[Small := 0, Medium := 0, Large := 0];
    for i := 0 to |records|
      invariant dailyCounts == DailyCounts(records[..i])
      invariant sizeDistribution == SizeDistribution(records[..i])
    {
      var record := records[i];
      assert records[..i + 1][..i] == records[..i];
      var day := StartOfDay(record.date);
      dailyCounts := dailyCounts[day := (if day in dailyCounts then dailyCounts[day] else 0) + 1];
      sizeDistribution := sizeDistribution[record.size := (if record.size in sizeDistribution then sizeDistribution[record.size] else 0) + 1];
    }
    assert records[..|records|] == records;
  }

  // ---------------------------------------------------------------------
  // The store object

  class DataManager {
    /** The records in insertion order (`@Published var records`). */
    var records: seq<PoopRecord>
    /** The key-value slot under "PoopRecords": the array last saved, or nothing. */
    var savedRecords: Option<seq<PoopRecord>>

    /**
      * `init()`: start empty and load what the slot holds. `stored` is the
      * slot's content at launch, `None` when it is absent or does not decode.
      */
    constructor (stored: Option<seq<PoopRecord>>)
      ensures records == (if stored.Some? then stored.value else [])
      ensures savedRecords == stored
    {
      records := [];
      savedRecords := stored;
      new;
      LoadRecords();
    }

    /** `loadRecords()`: replace the array by the slot's content; keep it when there is none. */
    method LoadRecords()
      modifies this
      ensures savedRecords == old(savedRecords)
      ensures records == if savedRecords.Some? then savedRecords.value else old(records)
    {
      if savedRecords.Some? {
        records := savedRecords.value;
      }
    }

    /** `saveRecords()`: write the whole array to the slot. */
    method SaveRecords()
      modifies this
      ensures records == old(records)
      ensures savedRecords == Some(records)
    {
      savedRecords := Some(records);
    }

    /** `addRecord`: append, then save. */
    method AddRecord(record: PoopRecord)
      modifies this
      ensures records == old(records) + [record]
      ensures savedRecords == Some(records)
    {
      records := records + [record];
      SaveRecords();
    }

    /** `updateRecord`: overwrite the first record with the same id and save; do nothing when there is none. */
    method UpdateRecord(record: PoopRecord)
      modifies this
      ensures records == ReplacingFirstId(old(records), record)
      ensures (forall x :: x in old(records) ==> x.id != record.id) ==> records == old(records) && savedRecords == old(savedRecords)
      ensures (exists x :: x in old(records) && x.id == record.id) ==> savedRecords == Some(records)
      ensures forall k :: IsFirstIndexOfId(old(records), record.id, k) ==> records == old(records)[k := record]
    {
      var index := FirstIndexOfId(records, record.id);
      if index.Some? {
        ReplacingWritesFirstIndex(records, record, index.value);
        records := records[index.value := record];
        SaveRecords();
      } else {
        ReplacingAbsentIdChangesNothing(records, record);
      }
    }

    /** `deleteRecord`: remove every record with the same id, then save (also when none matched). */
    method DeleteRecord(record: PoopRecord)
      modifies this
      ensures records == RemovingId(old(records), record.id)
      ensures savedRecords == Some(records)
    {
      records := RemovingId(records, record.id);
      SaveRecords();
    }

    /**
      * `getMonthlyStats(for: month)`: the month's records, their per-day and
      * per-size counts, the length of the month and the average per day.
      */
    method GetMonthlyStats(month: Date) returns (stats: MonthlyStats)
      ensures stats == MonthlyStatsOf(records, month)
      ensures stats.sizeDistribution.Keys == {Small, Medium, Large}
      ensures stats.sizeDistribution[Small] + stats.sizeDistribution[Medium] + stats.sizeDistribution[Large] == stats.totalCount
      ensures stats.daysWithPoop <= stats.totalCount && stats.daysWithPoop <= stats.totalDays
    {
      var monthRecords := RecordsInMonth(records, month);
      var dailyCounts, sizeDistribution := TallyRecords(monthRecords);
      DailyCountsKeys(monthRecords);
      var totalCount := |monthRecords|;
      var daysWithPoop := |dailyCounts.Keys|;
      var totalDays := DaysInMonth(month.year, month.month);
      stats := MonthlyStats(
        month,
        totalCount,
        daysWithPoop,
        totalDays,
        if totalDays > 0 then totalCount as real / totalDays as real else 0.0,
        sizeDistribution);
      DistributionAddsUpToTotal(records, month);
      DaysWithPoopBounded(records, month);
    }
  }
}
