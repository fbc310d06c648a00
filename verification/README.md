# PoopTracker record store and summaries, modelled in Dafny

PoopTracker is a small iOS habit tracker. The user logs events, called poop records. Each record has an id, a timestamp, one of three sizes (小 small, 中 medium, 大 large) and free-text notes. The user browses the records by calendar day and sees statistics per month. This project models the non-UI core of the app:

- `DataManager` is an in-memory array of records. The app appends to it, overwrites entries in place and removes entries from it. After each change it writes the whole array to one key-value slot.
- The read side of `DataManager` answers three queries. It returns a day's records, a day's summary (`DailyRecord`, or nothing for an empty day) and a month's records. It also computes `MonthlyStats` in one counting pass.
- `PoopRecord.swift` defines the size enum with its raw labels, the record with its initializer defaults, and the daily summary. That summary holds the count and the tie-broken "average" (the mode) size.

Files:

- `wrappers.dfy` (`Wrappers`): `Option`, for Swift's `nil`.
- `sequences.dfy` (`Sequences`): an order-preserving `Filter`, together with the lemmas the store uses. These say the result is a subsequence with exact multiplicities, that filtering distributes over `+`, that a filter everything passes is the identity, that narrowing a filter gives the narrower filter, and that permutations give results of equal length.
- `calendar.dfy` (`Calendar`): a date is its reading in one fixed local Gregorian calendar, made of year, month, day and seconds since midnight. The subset type `Date` admits only valid readings. `SameDay`, `SameMonth`, `StartOfDay` and `DaysInMonth` replace the `Calendar.current` calls.
- `poop_record.dfy` (`PoopRecords`): `PoopSize`, `PoopRecord` (whose constructor has the Swift defaults), `CountSize` and `DailyRecord`, with the tie-break lemmas.
- `data_manager.dfy` (`Store`):
  - the `DataManager` class, with fields `records` and `savedRecords` (the storage slot) and methods that change both in place;
  - the queries, written as functions of the record array;
  - `TallyRecords`, the counting loop of `getMonthlyStats`;
  - the lemmas for the store-level properties.

The mutators are specified against functions of the old array. `AddRecord` gives `old(records) + [record]`. `UpdateRecord` gives `ReplacingFirstId` and `DeleteRecord` gives `RemovingId`. The promised behaviour is proved about those functions as lemmas. `UpdateRecord` finds its index with a real linear search (`FirstIndexOfId`), which is proved to return the first matching index.

Behaviour of the code worth noting:

- `deleteRecord` removes every record with the id, not just one.
- `deleteRecord` saves even when nothing matched.
- `updateRecord` saves only when it found the id.
- `addRecord` does not check that the id is new. Instead, the model proves that the ids stay distinct after an add exactly when the new id is fresh, and that update and delete always keep them distinct.

## Model

| member | source | states |
|---|---|---|
| `PoopRecords.PoopSizeFromRawValue` | PoopTracker/PoopRecord.swift:11-14 | Decoding a label gives the case whose raw value is that label, and gives nothing exactly when no case has that label |
| `PoopRecords.PoopSize.RawValue` | PoopTracker/PoopRecord.swift:12-14 | Definition: the labels 小, 中 and 大 of small, medium and large. Its properties are in `RawValueRoundTrip` and `RawValueInjective` |
| `PoopRecords.RawValueRoundTrip` | PoopTracker/PoopRecord.swift:11-14 | Decoding the raw value of any size gives back that size |
| `PoopRecords.RawValueInjective` | PoopTracker/PoopRecord.swift:12-14 | The labels 小, 中 and 大 are pairwise distinct, so equal labels mean equal sizes |
| `PoopRecords.RecordDefaults` | PoopTracker/PoopRecord.swift:32 | A record built from only an id and a date has size Medium and empty notes |
| `PoopRecords.CountSize` | PoopTracker/PoopRecord.swift:49-51 | The number of records of one size, at most the number of records. What it counts is fixed by `CountSizeZeroIffAbsent`, `CountsSumToLength` and `CountSizeOrderIndependent` |
| `PoopRecords.CountSizeZeroIffAbsent` | PoopTracker/PoopRecord.swift:49-51 | A size's count is zero if and only if no record has that size |
| `PoopRecords.CountsSumToLength` | PoopTracker/PoopRecord.swift:48-51 | The large, medium and small counts add up to the number of records |
| `PoopRecords.CountSizeOrderIndependent` | PoopTracker/PoopRecord.swift:48-51 | Two record lists that are permutations of each other have the same count for every size |
| `PoopRecords.DailyRecord.TotalCount` | PoopTracker/PoopRecord.swift:45 | `totalCount` equals the sum of the three size counts |
| `PoopRecords.DailyRecord.AverageSize` | PoopTracker/PoopRecord.swift:46-56 | An empty day gives Medium; otherwise the chosen size's count is at least the count of every size (it is a mode) |
| `PoopRecords.AverageSizeTieBreak` | PoopTracker/PoopRecord.swift:47-55 | Large if and only if the day is non-empty and large ≥ medium and large ≥ small. Medium if and only if the day is empty, or Large is not chosen and medium ≥ small. Small if and only if small > medium and small > large |
| `PoopRecords.AverageSizeDependsOnlyOnCounts` | PoopTracker/PoopRecord.swift:47-55 | Two days with equal counts for all three sizes get the same average size, the empty case included |
| `PoopRecords.AverageSizeOrderIndependent` | PoopTracker/PoopRecord.swift:48-55 | Reordering a day's records does not change its average size |
| `PoopRecords.LargeWinsTieExample` | PoopTracker/PoopRecord.swift:53 | Sizes [Large, Medium] give Large |
| `PoopRecords.MediumWinsTieExample` | PoopTracker/PoopRecord.swift:54 | Sizes [Medium, Small] give Medium |
| `PoopRecords.SmallAloneExample` | PoopTracker/PoopRecord.swift:55 | Sizes [Small] give Small |
| `PoopRecords.ThreeRecordsExample` | PoopTracker/PoopRecord.swift:45-55 | Sizes [Small, Large, Large] give a total count of 3 and the average size Large |
| `Calendar.DaysInMonth` | PoopTracker/DataManager.swift:83-84 | A month has 28 to 31 days: 28 or 29 only for February (29 exactly in Gregorian leap years), and 30 only for April, June, September and November |
| `Calendar.StartOfDay` | PoopTracker/DataManager.swift:76 | The start of a day is at midnight and falls on the same calendar day |
| `Calendar.SameDayIffSameStart` | PoopTracker/DataManager.swift:76 | Two dates fall on the same day if and only if their days start at the same instant |
| `Calendar.SameDay` | PoopTracker/DataManager.swift:44 | Definition: equal year, month and day readings. Its link to `startOfDay` is `SameDayIffSameStart` |
| `Calendar.SameMonth` | PoopTracker/DataManager.swift:57-63 | Definition: equal year and month components. Its properties are in `RecordsInMonth` and `MonthIsUnionOfDays` |
| `Store.FirstIndexOfId` | PoopTracker/DataManager.swift:29 | The linear search returns nothing exactly when no record has the id; otherwise it returns the first index whose record has the id |
| `Store.ReplacingFirstId` | PoopTracker/DataManager.swift:29-30 | An update keeps the array's length and the id at every position |
| `Store.ReplacingAbsentIdChangesNothing` | PoopTracker/DataManager.swift:28-33 | An update whose id is absent leaves the array exactly as it was |
| `Store.ReplacingWritesFirstIndex` | PoopTracker/DataManager.swift:29-30 | An update whose id is present writes the record at the first index with that id, and every other position is unchanged |
| `Store.RemovingId` | PoopTracker/DataManager.swift:37 | After a delete, a record is in the array if and only if it was there before and has a different id |
| `Store.RemovingIdKeepsOthersInOrder` | PoopTracker/DataManager.swift:37 | The survivors of a delete form a subsequence of the old array; each record with another id keeps its multiplicity, and records with the id have none |
| `Store.RemovingAbsentIdChangesNothing` | PoopTracker/DataManager.swift:36-38 | Deleting an absent id leaves the array exactly as it was |
| `Store.AppendKeepsDistinctIds` | PoopTracker/DataManager.swift:22-25 | After an append the ids are pairwise distinct if and only if they were before and the new id is not among them |
| `Store.ReplacingKeepsDistinctIds` | PoopTracker/DataManager.swift:28-33 | An update keeps pairwise-distinct ids distinct |
| `Store.RemovingKeepsDistinctIds` | PoopTracker/DataManager.swift:36-38 | A delete keeps pairwise-distinct ids distinct |
| `Store.RecordsOnDay` | PoopTracker/DataManager.swift:42-45 | A record is in the day's list if and only if it is in the array and falls on that calendar day |
| `Store.RecordsOnDayIsExactSubsequence` | PoopTracker/DataManager.swift:42-45 | The day's list is a subsequence of the array (store order), and every record of that day keeps its multiplicity |
| `Store.DailyRecordFor` | PoopTracker/DataManager.swift:48-52 | The result is nil if and only if no record falls on the day. Otherwise it wraps the date and exactly that day's list, and its count is positive |
| `Store.RecordsInMonth` | PoopTracker/DataManager.swift:55-65 | A record is in the month's list if and only if it is in the array and has the same year and month |
| `Store.RecordsInMonthIsExactSubsequence` | PoopTracker/DataManager.swift:55-65 | The month's list is a subsequence of the array (store order), and every record of that month keeps its multiplicity |
| `Store.DayWithinMonth` | PoopTracker/DataManager.swift:42-65 | For a day of the month, filtering the month's list by the day gives that day's list, which is therefore a subsequence of the month's list |
| `Store.MonthIsUnionOfDays` | PoopTracker/DataManager.swift:42-65 | A record is in the month's list if and only if it is in the list of some day of that month |
| `Store.DaysWithRecords` | PoopTracker/DataManager.swift:82 | The set of start-of-day instants of the records, each at midnight. `DailyCountsKeys` shows it is the key set of `dailyCounts` |
| `Store.SizeDistribution` | PoopTracker/DataManager.swift:73-78 | Definition: the `sizeDistribution` dictionary after counting the records in order from zeros. Its properties are in `SizeDistributionCounts` |
| `Store.DailyCounts` | PoopTracker/DataManager.swift:72-77 | Definition: the `dailyCounts` dictionary after counting the records in order. Its properties are in `DailyCountsKeys` and `DailyCountsValues` |
| `Store.MonthlyStatsOf` | PoopTracker/DataManager.swift:68-94 | Definition: the statistics of a month as a function of the array. Its properties are in `DistributionAddsUpToTotal`, `DaysWithPoopBounded`, `AveragePerDayScalesToTotal` and `EmptyMonthStats` |
| `Store.SizeDistributionCounts` | PoopTracker/DataManager.swift:73-78 | The distribution has an entry for each of the three sizes, and each entry is the number of records of that size |
| `Store.DailyCountsKeys` | PoopTracker/DataManager.swift:72-82 | The keys of `dailyCounts` are exactly the start-of-day instants of the records, so `daysWithPoop` counts the distinct days |
| `Store.DailyCountsValues` | PoopTracker/DataManager.swift:72-77 | For every midnight, its entry in `dailyCounts` (0 when absent) is the length of that day's list |
| `Store.TallyRecords` | PoopTracker/DataManager.swift:72-79 | The counting loop ends with `dailyCounts` and `sizeDistribution` equal to their recursive definitions over all the month's records |
| `Store.DistributionAddsUpToTotal` | PoopTracker/DataManager.swift:73-81 | `totalCount` is the number of the month's records. The distribution has exactly the keys small, medium and large, and its values add up to `totalCount` |
| `Store.DaysWithPoopBounded` | PoopTracker/DataManager.swift:81-84 | `daysWithPoop` is at most `totalCount` and at most `totalDays`, and `totalDays` is between 28 and 31 |
| `Store.AveragePerDayScalesToTotal` | PoopTracker/DataManager.swift:91 | `averagePerDay` times `totalDays` is `totalCount` |
| `Store.EmptyMonthStats` | PoopTracker/DataManager.swift:68-94 | A month without records has a total of 0, 0 days with records, an average of 0, and a zero for every size |
| `Store.DataManager.constructor` | PoopTracker/DataManager.swift:17-19 | A new store holds the saved array when the slot decodes, and is empty otherwise |
| `Store.DataManager.LoadRecords` | PoopTracker/DataManager.swift:104-109 | Loading replaces the array by the slot's content, and keeps the array when the slot is absent or undecodable |
| `Store.DataManager.SaveRecords` | PoopTracker/DataManager.swift:97-101 | Saving writes the whole array to the slot and leaves the array unchanged |
| `Store.DataManager.AddRecord` | PoopTracker/DataManager.swift:22-25 | The new array is the old one with the record appended, and the slot holds the new array |
| `Store.DataManager.UpdateRecord` | PoopTracker/DataManager.swift:28-33 | The new array is `ReplacingFirstId` of the old one. On a miss, array and slot are unchanged; on a hit, the slot holds the new array and only the first matching index changed |
| `Store.DataManager.DeleteRecord` | PoopTracker/DataManager.swift:36-38 | The new array is the old one without the records that have the id, and the slot holds the new array even when nothing matched |
| `Store.DataManager.GetMonthlyStats` | PoopTracker/DataManager.swift:68-94 | The result equals `MonthlyStatsOf` the array. Its distribution has the three sizes and adds up to `totalCount`, and `daysWithPoop` is at most `totalCount` and at most `totalDays` |

## Left out

- JSON encoding and decoding and `UserDefaults`: the slot under the key "PoopRecords" is the field `savedRecords`, which holds the record array itself. Encoding is taken to succeed and to be lossless. A slot that is absent or fails to decode is `None`.
- `Store.AveragePerDayScalesToTotal`: `averagePerDay` is the exact rational quotient, not the IEEE `Double` quotient of the source, so rounding is not modelled.
- Foundation's calendar, time zones and daylight-saving transitions: a date is its reading in one fixed Gregorian calendar (year, month, day, seconds since midnight). Years are unbounded integers, with the Gregorian rule applied to all of them.
- `UUID()` and `Date()` as defaults: creating ids and reading the clock are left to the caller, so the record constructor takes both. A `UUID` is a 128-bit number compared for equality.
- Swift `Int` overflow traps: counts are unbounded naturals, which matches the source for any realistic number of records.
- The `emoji` display strings of `PoopSize`, `@Published` observation through Combine, and all SwiftUI views (calendar grid, record form, monthly charts), which are presentation code.
- The query methods `getRecords(for:)`, `getRecords(forMonth:)` and `getDailyRecord(for:)` read only `records`. They are modelled as functions of that array (`RecordsOnDay`, `RecordsInMonth`, `DailyRecordFor`) rather than as class members.
- The counting loop of `getMonthlyStats` is its own method, `TallyRecords`, which `GetMonthlyStats` calls.
