/**
  * The record model: one logged event (`PoopRecord`), its three-valued size
  * (`PoopSize`) and the per-day summary (`DailyRecord`) with its count and
  * its tie-broken "average" (mode) size.
  */
module PoopRecords {
  import opened Wrappers
  import opened Sequences
  import opened Calendar

  /** The size of one event. Its raw value is the label it is stored under. */
  datatype PoopSize = Small | Medium | Large
  {
    function RawValue(): string
    {
      match this
      case Small => "小"
      case Medium => "中"
      case Large => "大"
    }
  }

  /** `PoopSize(rawValue:)`: the case with the given label, if there is one. */
  function PoopSizeFromRawValue(raw: string): (r: Option<PoopSize>)
    ensures r.Some? ==> r.value.RawValue() == raw
    ensures r.None? <==> forall size: PoopSize :: size.RawValue() != raw
  {
    if raw == "小" then Some(Small)
    else if raw == "中" then Some(Medium)
    else if raw == "大" then Some(Large)
    else None
  }

  /** Decoding a size's raw value gives back that size. */
  lemma RawValueRoundTrip(size: PoopSize)
    ensures PoopSizeFromRawValue(size.RawValue()) == Some(size)
  {
  }

  /** Distinct sizes are stored under distinct labels. */
  lemma RawValueInjective(a: PoopSize, b: PoopSize)
    ensures a.RawValue() == b.RawValue() ==> a == b
  {
  }

  /** A `UUID` is a 128-bit value; the store only compares ids for equality. */
  newtype Uuid = x: int | 0 <= x < 0x1_0000_0000_0000_0000_0000_0000_0000_0000

  /**
    * One logged event. As in the Swift initializer, the size defaults to
    * `.medium` and the notes to the empty string; the id and the date,
    * which Swift takes from `UUID()` and `Date()`, are given by the caller.
    */
  datatype PoopRecord = PoopRecord(id: Uuid, date: Date, size: PoopSize := Medium, notes: string := "")

  /** A record built with only an id and a date has the default size and notes. */
  lemma RecordDefaults(id: Uuid, date: Date)
    ensures PoopRecord(id, date) == PoopRecord(id, date, Medium, "")
    ensures PoopRecord(id, date).size == Medium && PoopRecord(id, date).notes == ""
  {
  }

  /** How many of the records have the given size (`sizes.filter { $0 == size }.count`). */
  function CountSize(records: seq<PoopRecord>, size: PoopSize): (n: nat)
    ensures n <= |records|
  {
    |Filter(records, (r: PoopRecord) => r.size == size)|
  }

  /** A size counts zero exactly when no record has it. */
  lemma CountSizeZeroIffAbsent(records: seq<PoopRecord>, size: PoopSize)
    ensures CountSize(records, size) == 0 <==> forall r :: r in records ==> r.size != size
  {
    var matching := Filter(records, (r: PoopRecord) => r.size == size);
    assert matching != [] ==> matching[0] in matching;
  }

  /** Counting a record in front of others adds one to the count of its size only. */
  lemma CountSizeCons(first: PoopRecord, rest: seq<PoopRecord>)
    ensures forall size :: CountSize([first] + rest, size) == (if first.size == size then 1 else 0) + CountSize(rest, size)
  {
    assert ([first] + rest)[1..] == rest;
  }

  /** Counting one more record adds one to the count of its size only. */
  lemma CountSizeAppend(records: seq<PoopRecord>, last: PoopRecord, size: PoopSize)
    ensures CountSize(records + [last], size) == CountSize(records, size) + (if last.size == size then 1 else 0)
  {
    FilterAppend(records, [last], (r: PoopRecord) => r.size == size);
  }

  /** Every record has exactly one size, so the three counts add up to the number of records. */
  lemma {:induction false} CountsSumToLength(records: seq<PoopRecord>)
    ensures CountSize(records, Small) + CountSize(records, Medium) + CountSize(records, Large) == |records|
    decreases |records|
  {
    if records != [] {
      CountsSumToLength(records[1..]);
    }
  }

  /** The count of a size does not depend on the order of the records. */
  lemma CountSizeOrderIndependent(a: seq<PoopRecord>, b: seq<PoopRecord>, size: PoopSize)
    requires multiset(a) == multiset(b)
    ensures CountSize(a, size) == CountSize(b, size)
  {
    FilterLengthOnPermutation(a, b, (r: PoopRecord) => r.size == size);
  }

  /** The summary of one calendar day: the day and its records in store order. */
  datatype DailyRecord = DailyRecord(date: Date, records: seq<PoopRecord>)
  {
    /** `totalCount`: the number of records of the day. */
    function TotalCount(): (n: nat)
      ensures n == CountSize(records, Small) + CountSize(records, Medium) + CountSize(records, Large)
    {
      CountsSumToLength(records);
      |records|
    }

    /**
      * `averageSize`: the most frequent size, where Large wins every tie and
      * Medium wins a tie against Small; a day without records gives Medium.
      */
    function AverageSize(): (r: PoopSize)
      ensures records == [] ==> r == Medium
      ensures forall size :: CountSize(records, size) <= CountSize(records, r)
    {
      if records == [] then Medium
      else
        var large := CountSize(records, Large);
        var medium := CountSize(records, Medium);
        var small := CountSize(records, Small);
        if large >= medium && large >= small then Large
        else if medium >= small then Medium
        else Small
    }
  }

  /** The exact tie-break rule of `averageSize`, each outcome as an if-and-only-if. */
  lemma AverageSizeTieBreak(day: DailyRecord)
    ensures var large, medium, small := CountSize(day.records, Large), CountSize(day.records, Medium), CountSize(day.records, Small);
      && (day.AverageSize() == Large <==> day.records != [] && large >= medium && large >= small)
      && (day.AverageSize() == Medium <==> day.records == [] || (!(large >= medium && large >= small) && medium >= small))
      && (day.AverageSize() == Small <==> small > medium && small > large)
  {
  }

  /** `averageSize` depends only on the three counts, not on the records themselves. */
  lemma AverageSizeDependsOnlyOnCounts(a: DailyRecord, b: DailyRecord)
    requires forall size :: CountSize(a.records, size) == CountSize(b.records, size)
    ensures a.AverageSize() == b.AverageSize()
  {
    CountsSumToLength(a.records);
    CountsSumToLength(b.records);
  }

  /** Reordering the records of a day does not change its `averageSize`. */
  lemma AverageSizeOrderIndependent(a: DailyRecord, b: DailyRecord)
    requires multiset(a.records) == multiset(b.records)
    ensures a.AverageSize() == b.AverageSize()
  {
    forall size: PoopSize
      ensures CountSize(a.records, size) == CountSize(b.records, size)
    {
      CountSizeOrderIndependent(a.records, b.records, size);
    }
    AverageSizeDependsOnlyOnCounts(a, b);
  }

  /** Large wins a tie against Medium: `[Large, Medium]` gives Large. */
  lemma LargeWinsTieExample(date: Date, id1: Uuid, id2: Uuid)
    ensures DailyRecord(date, [PoopRecord(id1, date, Large), PoopRecord(id2, date, Medium)]).AverageSize() == Large
  {
    var first, second := PoopRecord(id1, date, Large), PoopRecord(id2, date, Medium);
    CountSizeCons(second, []);
    CountSizeCons(first, [second]);
    assert [second] == [second] + [] && [first, second] == [first] + [second];
  }

  /** Medium wins a tie against Small: `[Medium, Small]` gives Medium. */
  lemma MediumWinsTieExample(date: Date, id1: Uuid, id2: Uuid)
    ensures DailyRecord(date, [PoopRecord(id1, date, Medium), PoopRecord(id2, date, Small)]).AverageSize() == Medium
  {
    var first, second := PoopRecord(id1, date, Medium), PoopRecord(id2, date, Small);
    CountSizeCons(second, []);
    CountSizeCons(first, [second]);
    assert [second] == [second] + [] && [first, second] == [first] + [second];
  }

  /** A lone Small record gives Small. */
  lemma SmallAloneExample(date: Date, id: Uuid)
    ensures DailyRecord(date, [PoopRecord(id, date, Small)]).AverageSize() == Small
  {
    var only := PoopRecord(id, date, Small);
    CountSizeCons(only, []);
    assert [only] == [only] + [];
  }

  /** Three records of sizes `[Small, Large, Large]` give a count of 3 and the size Large. */
  lemma ThreeRecordsExample(date: Date, id1: Uuid, id2: Uuid, id3: Uuid)
    ensures var day := DailyRecord(date, [PoopRecord(id1, date, Small), PoopRecord(id2, date, Large), PoopRecord(id3, date, Large)]);
      day.TotalCount() == 3 && day.AverageSize() == Large
  {
    var first, second, third := PoopRecord(id1, date, Small), PoopRecord(id2, date, Large), PoopRecord(id3, date, Large);
    CountSizeCons(third, []);
    CountSizeCons(second, [third]);
    CountSizeCons(first, [second, third]);
    assert [third] == [third] + [] && [second, third] == [second] + [third];
    assert [first, second, third] == [first] + [second, third];
  }
}
