# Strategy-pick crawler: win-rate derivation and the dedup-and-persist step

This project models the core of a crawler that polls a stock-recommendation
API once per recommendation source and stores the day's results. It covers two
parts:

- **`WinRateDaily`** (`models.py`). When the raw average-increase array is
  assigned, the record stores it and derives `avg_increase`, the array's
  maximum, and `keep_day`, the 1-based position of the first occurrence of
  that maximum. When the raw success-percent array is assigned, it stores it
  and derives `succ_percent`, that array's maximum. Python's `max` raises on
  an empty list. The model returns an error value in that case.
- **`RecommendSourceCrawler.run`** (`dengta_crawler.py`). It takes the already
  fetched content, parsed into a report date, two arrays and a stock list.
  It returns without writing when the report is not dated today, or when its
  lookup finds a `WinRateDaily` row for the report date. Otherwise it creates
  one `WinRateDaily` row, then one `StockRecommended` row per stock, in order.
  Each stock code loses its first four characters.

Layout:

- `wrappers.dfy`: `Option`, `Result` and `Outcome`.
- `win_rate.dfy` (module `WinRate`): the pure derivations.
  - `Max` models Python's left-to-right `max`.
  - `FirstIndexOf` models `list.index`.
  - `DeriveAvgPeak` gives the peak and `keep_day`.
  - The predicates `IsPeak` and `IsFirstPosition` state what these results
    mean, independently of how they are computed.
- `models.dfy` (module `Models`): the row types and the pure factory
  `DeriveWinRate`. It also holds the class `WinRateDaily`, whose two setter
  methods update its columns in place. Its static `New` runs the
  constructor's steps in the constructor's order.
- `crawler.dfy` (module `Crawler`): the content record and the code slice.
  - `Store` is the database as a commit log. Each `create` commits its own
    row, so the log shows the order of writes.
  - `RunEffect` is the specification of one `run`.
  - `RecommendSourceCrawler.Run` is the imperative method, proved to equal
    `RunEffect`. Its stock loop lives in `CreateStocks`.
  - The remaining members are the lemmas about `RunEffect`.

The two source ids are kept apart, as in the code. Rows are written with the
internal integer `id` (`dengta_crawler.py:61`, `66`). The existence lookup
compares the integer column with the external text `source_id`
(`dengta_crawler.py:53`). The database converts the text to a number for that
comparison. The model says that the column matches the text exactly when the
text is the decimal spelling of the integer (`ColumnMatchesText`).

The slice `[4:]` always drops exactly four characters. A code with a
4-character market prefix such as `"0101600000"` becomes `"600000"`, while
`"SH600000"` becomes `"0000"` (`StripPrefixExamples`). The existence lookup is
keyed by the external `source_id` and the date, while rows carry the internal
`id`; see "Findings".

## Model

| member | source | states |
|---|---|---|
| `WinRate.Max` | models.py:101 | `max(list)` fails exactly on an empty list; otherwise its result is an element of the list that no element exceeds |
| `WinRate.FirstIndexOf` | models.py:102 | `list.index(x)` gives a position holding `x`, and no earlier position holds `x` |
| `WinRate.DeriveAvgPeak` | models.py:101-102 | fails exactly on an empty list; otherwise `avg_increase` is the list's peak, and `keep_day` is in `1..len`, holds the peak, and no earlier day holds it |
| `WinRate.PeakUnique` | models.py:101 | a list has only one peak value |
| `WinRate.KeepDayIsFirstPeakPosition` | models.py:101-102 | any first position of any peak is exactly the derived `keep_day`, so ties go to the earliest day |
| `WinRate.PeakIgnoresOrder` | models.py:111 | the peak depends only on the multiset of values, not on their order |
| `Models.DeriveWinRate` | models.py:89-111 | construction succeeds exactly when both lists are non-empty. An empty average-increase list fails first. On success the row keeps the key, the date and both raw lists, with their peaks and the first-peak `keep_day` |
| `Models.WinRateDaily.Blank` | models.py:89-90 | the keyword columns are set; the JSON and derived columns are still NULL |
| `Models.WinRateDaily.SetSAvgIncrease` | models.py:94-102 | the getter returns the assigned list. The assignment fails exactly on an empty list, and then `avg_increase` and `keep_day` keep their old values. On success they are the peak and its first 1-based day. The success-percent columns are unchanged |
| `Models.WinRateDaily.SetSSuccPercent` | models.py:104-111 | the getter returns the assigned list. The assignment fails exactly on an empty list, and then `succ_percent` is unchanged; otherwise it is the list's peak. The average-increase columns are unchanged |
| `Models.WinRateDaily.New` | models.py:89-92 | succeeds or fails exactly as `DeriveWinRate`. On success it yields a fresh, complete object whose row is the derived row |
| `Models.WinRateDaily.SAvgIncrease` | models.py:94-96 | getter `s_avg_increase`: the array held in the raw column, `None` while the column is NULL (decoding NULL raises); the setter's contract makes it return the list last assigned |
| `Models.WinRateDaily.SSuccPercent` | models.py:104-106 | getter `s_succ_percent`: the array held in the raw column, `None` while the column is NULL; the setter's contract makes it return the list last assigned |
| `Models.WinRateDaily.ToRow` | models.py:73-87 | defines the `win_rate_daily` row a complete object commits: its key, date, both raw arrays and the three derived columns |
| `Crawler.ColumnMatchesText` | dengta_crawler.py:52-54 | defines when the integer column `recommend_source_id` compares equal to the text `source_id`: the text is the integer's decimal spelling |
| `Crawler.WinRateExists` | dengta_crawler.py:52-54 | defines the existence lookup as written: some committed win-rate row has the report date and a key matching the external `source_id` |
| `Crawler.ShouldPersist` | dengta_crawler.py:56-57 | defines the gate: the report is dated today and the lookup finds nothing |
| `Crawler.StockRowOf` | dengta_crawler.py:65-70 | defines the stock row for one entry: the internal `id`, the report date, `sSecName` and `sDtSecCode[4:]` |
| `Crawler.StockRows` | dengta_crawler.py:64-70 | defines the rows the stock loop commits, one per entry in list order; `StockRowsAt` states them position by position |
| `Crawler.Persist` | dengta_crawler.py:58-70 | defines the writes after the gate: the error of the first empty array and no rows, or the win-rate row followed by the stock rows |
| `Crawler.RunEffect` | dengta_crawler.py:48-70 | defines one `run` on a store: skipped with no rows when the gate fails, otherwise `Persist`; its properties are the lemmas below |
| `Crawler.OtherSourceRowBlocks` | dengta_crawler.py:52-61 | once a source whose `id` is spelt by this source's `source_id` has persisted, this source's run on a report of the same date writes nothing |
| `Crawler.OtherSourceBlocksExample` | dengta_crawler.py:52-61 | a source with `id` 7 and `source_id` `"123"` persists on an empty store, but is skipped after a source with `id` 123 has written a row for the same date |
| `Crawler.StripPrefix` | dengta_crawler.py:69 | the code minus its first 4 characters, with length `max(0, len - 4)`; character `i` is the raw character `i + 4` |
| `Crawler.StripPrefixExamples` | dengta_crawler.py:69 | `"0101600000" -> "600000"`, `"SH600000" -> "0000"`, and codes of at most 4 characters become `""` |
| `Crawler.StockRowsAt` | dengta_crawler.py:64-70 | the stock loop writes one row per entry. The row at position `i` is for entry `i`: same key and date, the entry's name, and the stripped code |
| `Crawler.NotTodayWritesNothing` | dengta_crawler.py:56-57 | a report not dated today writes nothing, whatever the store holds |
| `Crawler.FoundRowWritesNothing` | dengta_crawler.py:52-57 | a row dated the report date that matches the external `source_id` stops the run before any write |
| `Crawler.RunOutcomeCases` | dengta_crawler.py:56-63 | the run writes exactly when the gate passes and both lists are non-empty. It skips exactly when the gate fails. With the gate passed, it fails with the error of the first empty list and writes nothing |
| `Crawler.PersistedWrites` | dengta_crawler.py:58-70 | a persisting run writes `1 + len(vtIntelliStock)` rows. The win-rate row comes first, keyed by the internal `id` and the date, with both raw lists and their derived values. One stock row per entry follows, in list order |
| `Crawler.SecondRunSkippedWhenIdsCoincide` | dengta_crawler.py:52-61 | if `source_id` spells `id`, a second run on a same-date report writes nothing |
| `Crawler.AsWrittenRunRepeats` | dengta_crawler.py:52-66 | if `source_id` does not spell `id`, the rows a run writes are invisible to its own lookup, so running again repeats the same writes |
| `Crawler.AsWrittenDuplicatesWinRate` | dengta_crawler.py:52-63 | for a source with `id` 7 and `source_id` `"123"`, two runs on one same-day report both persist, giving two identical win-rate rows |
| `Crawler.RunByIdNeverRepeats` | dengta_crawler.py:52-61 | with the lookup keyed by the internal `id`, a second run on a same-date report writes nothing, whatever the two ids are |
| `Crawler.GatesAgreeWhenIdsCoincide` | dengta_crawler.py:52-54 | if `source_id` spells `id`, the lookup as written and the lookup by `id` agree, so both versions of `run` have the same effect |
| `Crawler.DecimalTextInjective` | dengta_crawler.py:52-54 | two ids with the same decimal spelling are equal, so the text lookup names at most one internal id |
| `Crawler.ScenarioSingleStock` | dengta_crawler.py:48-70 | on an empty store, a same-day report with `[1.2, 3.4, 2.1]`, `[55.0, 60.0, 58.0]` and stock `("Foo", "0101600001")` writes a win-rate row (3.4, day 2, 60.0), then the stock row `("Foo", "600001")` |
| `Crawler.Store.Create` | models.py:20-24 | `create` commits exactly one new row after all earlier rows |
| `Crawler.CreateStocks` | dengta_crawler.py:64-70 | the loop appends the stock rows of all entries, in order, and leaves earlier rows untouched |
| `Crawler.RecommendSourceCrawler.constructor` | dengta_crawler.py:36-37 | the crawler holds its source record, which never changes afterwards |
| `Crawler.RecommendSourceCrawler.Run` | dengta_crawler.py:48-70 | the outcome and the new store are those of `RunEffect`. The old rows stay as a prefix, so nothing is modified or removed, and the source record is a constant |

## Findings

| source | as written | input that shows it | evidently intended | confidence | as-written member | corrected member |
|---|---|---|---|---|---|---|
| dengta_crawler.py:52-66 | the existence lookup matches `recommend_source_id` against the external `source_id` text, but rows are written with the internal `id`; so a source's own rows are missed, and another source's rows can block it (`OtherSourceRowBlocks`) | a source with `id` 7 and `source_id` `"123"`, run twice on the same same-day report: the lookup never finds the first run's row, and a second win-rate row is written for the same (source, date) | look up by `r_source_model.id`, the key the rows carry, so a source is recorded at most once per day | medium (the comparison follows the database's text-to-number conversion); not executed | `Crawler.AsWrittenDuplicatesWinRate` | `Crawler.RunByIdNeverRepeats` |

`RecommendSourceCrawler.Run` keeps the lookup as written, because that is the
behaviour of the program being modelled. `RunEffectById` is the corrected
specification. `GatesAgreeWhenIdsCoincide` shows that the two agree whenever
the external id spells the internal id.

## Left out

- Fetching the content over HTTP (`get_recommend_source_info`) and its double JSON decode: the fetched content is a parameter of `Run`. A missing key (`KeyError`) cannot occur in the typed content record.
- `now_timestamp`: it reads the clock and is only a cache-buster in the URL.
- Parsing `sDate` with `dateutil`: the report date and today's date are plain `Date` values passed in.
- `intellistock_crawler_task`: the thread pool, the catch-all per task, and the late-binding closure are concurrency and are not modelled. Each `run` is modelled on its own.
- ORM plumbing: the engine and session, `update`, `save`, `delete`, the mixins, the autoincrement `id` of each row, and column widths (`String(32)`, `String(16)`), which the model does not enforce.
- A database error part-way through the stock loop: each `create` commits on its own, so the real program could leave a win-rate row with only some of its stocks. The model treats every commit as succeeding.
- JSON serialisation of the arrays: the column holds the sequence itself, so reading it back returns exactly what was stored.
- Floating point: values are `real`, so NaN, infinities and signed zero are not modelled. The values are only compared.
- `recommend_date`'s default of today's date: `run` always passes the date explicitly.
- `WinRateDaily`'s other keyword arguments: `New` takes only `recommend_source_id` and `recommend_date`, the two that `run` passes.
- `ColumnMatchesText`: only canonical decimal spellings are covered. Other spellings the database would also convert to a number (leading zeros, a sign, a fraction) are not modelled.
- `WinRate.FirstIndexOf`: requires the value to be in the list, so `list.index`'s `ValueError` is not modelled. The only call passes the list's own maximum.
- The lookup's `.first()` returns a row, but only its existence is used, so the model keeps only the existence test.
- Logging calls.
