# bdms: a verified model of the Binance data archive builder

bdms mirrors the public Binance market-data archive (`data.binance.vision`) on disk and merges it into one file per series.

The model covers `populate_database` as far as the pool. The pool itself is not modelled. The model covers:

- walking every (trading type, data type) key, date, symbol and interval;
- clamping the start date to each key's first archived date;
- building one download job per missing file: its url, its zip path, its target path and its columns.

It also covers the column rules applied to a downloaded table (`download_and_process_file`).

The model covers `merge_database` as far as the pool. The pool itself is not modelled. The model covers:

- listing the monthly and the daily directory of every series;
- keeping the files that lie in the date window;
- reconciling them with `intersect_dates`;
- the continuity check between the last month and the first day;
- deriving the merged output file.

It also covers `concatenate_dfs_on_disk` and the helpers both of these share:

- `get_base_path`
- `get_file_basename`
- `get_valid_combinations`
- `get_cols`
- `extract_dates_from_filenames`
- `check_date_range`
- `split_date_range`
- the constant tables of the enums module

## Modules

Each module is one file.

| Module | What it holds |
|---|---|
| `Wrappers` | Option, Result and the Python exceptions raised: `AssertionError`, `ValueError`, `KeyError`, `IndexError` |
| `Dates` | The proleptic Gregorian `datetime.date`: validity (years 1..9999), `toordinal`, order, `timedelta` steps, `replace(day=1)` |
| `Text` | ASCII `lower`/`upper`, `find`, `endswith`, `str.replace` and POSIX `os.path.join` |
| `Enums` | The tables of `bdms/enums.py` |
| `Filenames` | `str(date)`, fixed-width `strptime`, `get_file_basename` and `extract_dates_from_filenames` |
| `Paths` | `get_base_path`, and the merged directory obtained from the monthly base path by three `str.replace` calls |
| `DateRange` | `check_date_range` and `split_date_range` |
| `Combinations` | `get_valid_combinations` and `get_cols` |
| `Concat` | `concatenate_dfs_on_disk`, over a disk that maps paths to tables |
| `Merge` | The job builder of `merge_database` |
| `Populate` | The job builder of `populate_database`, and the frame rules |

Modules that map to code that changes state step by step are written as methods with loops:

- the loops of the builders;
- the appends of `get_valid_combinations`;
- the two loops of `split_date_range`;
- the pair scan of `check_date_range`;
- the csv loop and the parquet writer.

Each such method is proved equal to a specification function, and the properties are lemmas about those functions. The disk that `concatenate_dfs_on_disk` changes is a class (`Concat.Disk`) with a `files` map field.

## Model

| member | source | states |
|---|---|---|
| Enums.DataTypeTablesDisjoint | bdms/enums.py:14-20 | No market data type is also a futures-only data type; the time periods are daily and monthly |
| Enums.IntervalsAreDistinct | bdms/enums.py:7-11 | The sixteen kline intervals are pairwise distinct and include `1s` |
| Enums.FuturesTradeColumnsDropBestMatch | bdms/enums.py:31-65 | Futures trade and aggTrade columns are the spot ones without the trailing `is_best_match` |
| Enums.ColumnMapKeys | bdms/enums.py:51-65 | The spot column map covers exactly the market data types; the futures map also covers the futures types; every kline-like type has the kline columns |
| Text.Lower | bdms/utils.py:54 | `lower()` preserves length and lowers each ASCII letter in place |
| Text.Upper | bdms/utils.py:66 | `upper()` preserves length and raises each ASCII letter in place |
| Text.FindFrom | bdms/utils.py:375 | The first index at or after the start where the pattern occurs, or -1 when none does |
| Text.Find | bdms/utils.py:375 | `find` is -1 exactly when the pattern is absent; otherwise it is an occurrence with none before it |
| Text.Contains | bdms/populate.py:67 | `p in s`: some index where the pattern occurs; `Text.Find` is -1 exactly when it does not hold |
| Text.EndsWith | bdms/merge.py:197 | `s.endswith(p)`: the last characters of `s` are `p`; used by the window test that `Merge.WindowMembers` states |
| Text.Replace | bdms/merge.py:267-273 | `s.replace(p, r)`: every occurrence, left to right, without overlaps; stated by the three lemmas below and `Paths.ReplaceSegments` |
| Text.ReplaceAppend | bdms/merge.py:266-273 | `str.replace` distributes over a concatenation that no occurrence straddles |
| Text.ReplaceAbsent | bdms/merge.py:266-273 | `str.replace` leaves a string without the pattern unchanged |
| Text.ReplaceWhole | bdms/merge.py:266-273 | A string equal to the pattern becomes the replacement |
| Text.Join | bdms/merge.py:180-181 | POSIX `os.path.join`: an absolute second part wins, otherwise one slash between; its results are stated by `Paths.MergedOutputFileShape` and `Populate.UrlMirrorsZip` |
| Dates.LessIsOrdinalLess | bdms/utils.py:459 | Date comparison agrees with ordinal comparison |
| Dates.Ordinal | bdms/utils.py:414-423 | `toordinal`, so `(d2 - d1).days` is a difference of ordinals; stated by `Dates.OrdinalInjective` and `Dates.LessIsOrdinalLess` |
| Dates.NextDay | bdms/utils.py:483 | `+ timedelta(days=1)`; stated by `Dates.NextDayOrdinal` and `Dates.NextDayIsImmediate` |
| Dates.AddDays | bdms/utils.py:481-483 | `+ timedelta(days=n)`, one day at a time; stated by `Dates.AddDaysOrdinal` |
| Dates.FloorMonth | bdms/utils.py:468 | `replace(day=1)`: the same year and month, day 1 |
| Dates.NextMonthStart | bdms/utils.py:471-473 | The first day of the following month; stated by `Dates.NextMonthStartIsImmediate` and `Dates.MonthStepIsNextMonthStart` |
| Dates.OrdinalInjective | bdms/utils.py:414-423 | Dates with the same ordinal are equal, so `(d2 - d1).days == 0` means `d1 == d2` |
| Dates.NextDayOrdinal | bdms/utils.py:483 | `+ timedelta(days=1)` adds one to the ordinal |
| Dates.NextDayIsImmediate | bdms/utils.py:481-483 | No date lies strictly between a date and the next day |
| Dates.NextMonthStartIsImmediate | bdms/utils.py:471-473 | No month start lies strictly between a date and the next month start |
| Dates.MonthStepIsNextMonthStart | bdms/utils.py:473 | `(d + timedelta(days=32)).replace(day=1)` of a month start is the next month start |
| Dates.MonthGapIsNextMonth | bdms/utils.py:409-421 | Two month starts 28 to 31 days apart are consecutive months |
| Dates.NextMonthGap | bdms/utils.py:414-421 | Consecutive month starts are 28 to 31 days apart |
| Dates.DayGapIsNextDay | bdms/utils.py:423 | A gap of one day means the second date is the next day |
| Dates.AddDaysOrdinal | bdms/utils.py:481-483 | Adding n days to a well-formed date gives a well-formed date n ordinals later |
| Filenames.FormatDate | bdms/populate.py:243 | `str(date)` is ten characters with dashes at positions 4 and 7 |
| Filenames.ParseDate | bdms/utils.py:456-457 | A parsed string yields a valid date; `None` where strptime raises |
| Filenames.ParseFormat | bdms/utils.py:456-457 | Parsing `str(d)` gives back `d` |
| Filenames.FormatParse | bdms/utils.py:456-457 | A string that parses is in canonical form: formatting the result gives it back |
| Filenames.RemoveDots | bdms/utils.py:373 | The joined pieces contain no dot and hold every other character as often as the string did; a string without dots is unchanged |
| Filenames.RemoveDotsAppend | bdms/utils.py:373 | Joining the pieces works character by character, so the other characters keep their order |
| Filenames.LastIndexOf | bdms/utils.py:373 | The index of the last occurrence of the character |
| Filenames.ExtractDate | bdms/utils.py:373-379 | The date of one name, always valid, or `None` where strptime raises |
| Filenames.ExtractDates | bdms/utils.py:353-382 | Success exactly when every name yields a date; one date per name in input order; otherwise the strptime `ValueError` |
| Filenames.ExtractDatesFromFilenames | bdms/utils.py:371-382 | The loop computes `ExtractDates` |
| Filenames.GetFileBasename | bdms/utils.py:101-110 | Fails exactly when the interval's presence disagrees with the kline test; otherwise the name is the symbol, a dash, the interval (or the data type without one), a dash and the date, cut to `YYYY-MM` for monthly files |
| Filenames.FormatDateShape | bdms/utils.py:373-375 | A formatted date contains no dot; for years 2000..2099 it starts with "20" |
| Filenames.MonthFormCompleted | bdms/utils.py:377 | The month form of a date, completed with `-01`, parses to its month start |
| Filenames.BasenameRoundTrip | bdms/utils.py:353-382 | Extracting the date from a name built by `get_file_basename` gives the date back (its month start for monthly files), for symbols and types without "20" or dots and years 2000..2099 |
| Paths.GetBasePath | bdms/utils.py:18-69 | Success exactly when the asserts pass; the failure is an `AssertionError` with one of the assert messages; the value is the joined segment list |
| Paths.BasePathIsSegments | bdms/utils.py:61-68 | The f-string lists the segments `data`, spot or futures/tt, period, type, upper-cased symbol and interval |
| Paths.BasePathShape | bdms/utils.py:61-68 | A base path starts with its trading-type directory, holds the upper-cased symbol as a whole segment and ends with a slash |
| Paths.SegmentReplace | bdms/merge.py:267-273 | On one segment, `replace("w/", r)` acts exactly when the segment is `w` |
| Paths.ReplaceSegments | bdms/merge.py:267-273 | On a segment path, `replace` substitutes whole segments equal to the keyword, provided no other segment ends with it |
| Paths.TableNamesOrdinary | bdms/enums.py:7-19 | No table name can be mistaken for `data/`, `monthly/` or a symbol by the rewrites |
| Paths.KeywordEnd | bdms/merge.py:267-273 | Only a segment equal to a keyword ends with it |
| Paths.MergedRename | bdms/merge.py:266-269 | The first rewrite renames or drops only the leading `data` segment |
| Paths.MergedDropMonthly | bdms/merge.py:270 | The second rewrite drops exactly the `monthly` segment |
| Paths.MergedDropSymbol | bdms/merge.py:271-274 | The third rewrite drops exactly the symbol segment |
| Paths.MergedSegments | bdms/merge.py:266-274 | The three rewrites together map the monthly segments to `[merged] + type... + [mdt] + interval...` |
| Paths.MergedSavePathOfSegments | bdms/merge.py:266-274 | The save directory joined to the root or the output directory |
| Paths.MergedSavePath | bdms/merge.py:266-274 | The three rewrites and the join that give the save directory; stated by `Paths.MergedSavePathOfSegments` |
| Paths.MergedOutputFile | bdms/merge.py:278 | `{save_path}/{symbol}.{output_format}`; stated by `Paths.MergedOutputFileShape` |
| Paths.MonthlyBasePathSegments | bdms/utils.py:61-68 | The monthly base path as the segment list the rewrites work on |
| Paths.MergedOutputFileShape | bdms/merge.py:266-278 | The merged file is `merged/{spot or futures/tt}/{type}/[{interval}/]{SYMBOL}.{fmt}` under the root, or the same without `merged/` under the output directory |
| DateRange.CheckDateRange | bdms/utils.py:385-427 | `AssertionError` exactly for an unknown mode; otherwise the message for the first offending pair, tested in code order, or `None` |
| DateRange.PairViolation | bdms/utils.py:408-426 | The message for one adjacent pair, tested in code order; stated by `DateRange.MonthlyPairAccepted` and `DateRange.DailyPairAccepted` |
| DateRange.FirstViolation | bdms/utils.py:407-427 | The message for the first offending pair; stated by the two lemmas below |
| DateRange.FirstViolationNone | bdms/utils.py:407-427 | No message means no adjacent pair offends |
| DateRange.FirstViolationIsFirst | bdms/utils.py:407-426 | A message names an offending pair, and every earlier pair passes |
| DateRange.MonthlyPairAccepted | bdms/utils.py:408-421 | Monthly mode accepts a pair exactly when it is a month start and the next month start |
| DateRange.DailyPairAccepted | bdms/utils.py:422-426 | Daily mode accepts a pair exactly when the second date is the next day |
| DateRange.MonthlyAcceptedIffConsecutive | bdms/utils.py:385-427 | A monthly list passes exactly when it is a run of consecutive month starts |
| DateRange.DailyAcceptedIffConsecutive | bdms/utils.py:385-427 | A daily list passes exactly when every date is followed by the next day |
| DateRange.MonthRunClosedForm | bdms/utils.py:471-473 | The k-th month of a month run is the k-th month after its start |
| DateRange.DayRunClosedForm | bdms/utils.py:481-483 | The k-th day of a day run is k days after its start |
| DateRange.MonthRunMembership | bdms/utils.py:471-473 | A month run covers exactly the month starts in its range |
| DateRange.DayRunMembership | bdms/utils.py:481-483 | A day run covers exactly the dates in its range |
| DateRange.SplitRange | bdms/utils.py:430-489 | Fails exactly when a date does not parse or the end precedes the start, with `ValueError`; otherwise the split from start's month to end's month, then the days up to the end |
| DateRange.WholeMonths | bdms/utils.py:468-473 | The first loop lists the month starts from start's month up to end's month; the list is empty exactly when they are the same month |
| DateRange.RemainingDays | bdms/utils.py:481-483 | The second loop lists the days from its first date up to, not including, the end |
| DateRange.MonthsFromRun | bdms/utils.py:468-473 | The month-step recursion yields a month run that reaches its stop |
| DateRange.MonthsFrom | bdms/utils.py:471-473 | The first loop of `split_date_range` as a recursion; stated by `DateRange.MonthsFromRun` |
| DateRange.DaysFrom | bdms/utils.py:481-483 | The second loop as a recursion; stated by `DateRange.DaysFromRun` |
| DateRange.DaysFromRun | bdms/utils.py:481-483 | The day-step recursion yields a day run that reaches its end |
| DateRange.SplitDatesOutcome | bdms/utils.py:464-483 | The split of the parsed dates is the one the two loops and the reset describe |
| DateRange.SplitDateRange | bdms/utils.py:430-489 | The method with its two loops computes `SplitRange` |
| DateRange.SplitShape | bdms/utils.py:464-483 | The monthly list is month starts in order; the daily list is consecutive days ending before the end |
| DateRange.SplitTiling | bdms/utils.py:435-439 | Every date from the effective start up to the end is covered exactly once, by a monthly date's month or by a daily date, and no other date is covered |
| DateRange.SplitPassesChecks | bdms/utils.py:486-487 | Both lists pass `check_date_range` in their modes |
| DateRange.SplitOutcomeUnique | bdms/utils.py:430-489 | The two lists are determined by the two dates |
| DateRange.SplitWholeMonthExample | bdms/utils.py:430-489 | 2024-01-01 to 2024-02-01 gives one month and no days |
| DateRange.SplitOneDayExample | bdms/utils.py:477-483 | 2024-01-01 to 2024-01-02 gives no month and one day |
| DateRange.SplitPartialMonthsExample | bdms/utils.py:430-489 | 2021-01-13 to 2021-03-25 gives January and February, then March 1 to 24 |
| Combinations.RemoveFirst | bdms/utils.py:166 | `remove` on the copy drops exactly the first occurrence: the list before it followed by the list after it, one occurrence fewer as a multiset; a list without the value is unchanged |
| Combinations.MarketOnly | bdms/utils.py:163-165 | The spot data types are the requested ones that are market data types, each as often as it was requested |
| Combinations.MarketOnlyAppend | bdms/utils.py:163-165 | The comprehension filters element by element, so it keeps the requested order |
| Combinations.FirstIndex | bdms/utils.py:166 | The index `remove` deletes at: an occurrence with none before it |
| Combinations.GetValidCombinations | bdms/utils.py:113-189 | Success exactly when all assertions pass, else an `AssertionError`; the keys are `ValidCombinations`, spot loop first |
| Combinations.BuildCombinations | bdms/utils.py:158-189 | The two loops compute `ValidCombinations` |
| Combinations.ValidCombinations | bdms/utils.py:158-189 | The spot block, when spot is requested, followed by the futures block; stated by `Combinations.ValidCombinationsMembers`, `Combinations.ValidCombinationsIntervals` and `Combinations.SpotFirst` |
| Combinations.SpotBlock | bdms/utils.py:167-174 | `product(symbols, spot_data_types)`, symbol by symbol; computed by `Combinations.AppendSpotKeys` |
| Combinations.FuturesBlock | bdms/utils.py:177-187 | `product(symbols, trading_types)` over all data types; computed by `Combinations.AppendFuturesKeys` |
| Combinations.AppendSpotKeys | bdms/utils.py:162-174 | The spot loop appends `SpotBlock` |
| Combinations.AppendFuturesKeys | bdms/utils.py:177-187 | The futures loop appends `FuturesBlock` |
| Combinations.AppendTradingTypes | bdms/utils.py:177-187 | The loop over futures trading types of one symbol appends `ForTradingTypes` |
| Combinations.AppendDataTypes | bdms/utils.py:164-187 | The loop over data types appends `ForDataTypes` |
| Combinations.AppendEntries | bdms/utils.py:165-187 | One data type appends one entry, or one per interval for kline types |
| Combinations.ValidCombinationsMembers | bdms/utils.py:158-189 | A key is listed exactly when its symbol is requested and it is a spot key of a requested market type or its trading type is served by the futures loop, with the matching interval rule |
| Combinations.ValidCombinationsIntervals | bdms/utils.py:158-189 | Listed keys have requested symbols and types; the interval is `None` exactly for non-kline types and a requested interval otherwise; `1s` never goes with a futures data type |
| Combinations.RemoveFirstOnce | bdms/utils.py:166 | Removing a value that occurs at most once removes it entirely |
| Combinations.SpotFirst | bdms/utils.py:158-189 | With "spot" requested at most once, every spot key precedes every futures key |
| Combinations.GetCols | bdms/utils.py:330-350 | The columns are the futures map's entry for a non-spot trading type and the spot map's otherwise; `KeyError` exactly for a data type that map lacks |
| Combinations.GetColsTables | bdms/utils.py:330-350 | Kline-like types get the kline columns; futures trades lack `is_best_match`; spot has no futures types |
| Concat.Extension | bdms/merge.py:42-47 | The extension contains no dot and is what follows the last dot, or the whole path without one |
| Concat.Disk.ConcatenateDfsOnDisk | bdms/merge.py:22-75 | The new disk is `Concatenate` of the old one; a failure leaves the disk alone |
| Concat.Disk.WriteCsv | bdms/merge.py:50-55 | The csv loop computes `CsvWrite` |
| Concat.Disk.WriteParquet | bdms/merge.py:57-68 | The parquet writer computes `ParquetWrite` |
| Concat.Concatenate | bdms/merge.py:22-75 | The disk after the call, or the assertion raised first; stated by `Concat.ConcatenateAsserts`, `Concat.ConcatenateKeepsOthers` and `Concat.ConcatenateOutcome` |
| Concat.CsvWrite | bdms/merge.py:50-55 | The csv branch; stated by `Concat.CsvWriteShape` and `Concat.CsvWriteFailureSticks` |
| Concat.ParquetWrite | bdms/merge.py:57-68 | The parquet branch; stated by `Concat.ParquetWriteShape` and `Concat.ParquetWriteFailureSticks` |
| Concat.CsvWriteFailureSticks | bdms/merge.py:50-55 | Once a file fails to load, the csv output fails |
| Concat.ParquetWriteFailureSticks | bdms/merge.py:57-68 | Once a file fails to load or a schema differs, the parquet output fails |
| Concat.CsvWriteShape | bdms/merge.py:50-55 | Csv output exists exactly when every file loads; it has the first file's header and every file's rows in order |
| Concat.ParquetWriteShape | bdms/merge.py:57-68 | Parquet output exists exactly when there is a first path, every file loads and every table has the first schema; it has that schema and every row in order |
| Concat.ConcatenateAsserts | bdms/merge.py:41-47 | The call fails with `AssertionError`, leaving the disk alone, exactly when a path is missing or a format is wrong |
| Concat.ConcatenateKeepsOthers | bdms/merge.py:22-75 | A call that passed its assertions leaves every other path as it was |
| Concat.ConcatenateOutcome | bdms/merge.py:48-73 | After the assertions, the output holds the concatenation, or is removed when the write raised |
| Concat.OutputAmongInputs | bdms/merge.py:48-73 | A job whose output is one of its inputs leaves no output: opening truncates the input |
| Merge.Zip | bdms/merge.py:193 | `zip` pairs each file with its date position by position |
| Merge.Names | bdms/merge.py:229-230 | The names of a listed sequence, position by position |
| Merge.JoinAll | bdms/merge.py:254-255 | Each name joined to the directory, position by position |
| Merge.WindowMembers | bdms/merge.py:193-199 | A file is kept exactly when it has the format's suffix and its date is in the window, both ends included |
| Merge.WindowAppend | bdms/merge.py:193-199 | The window keeps listing order |
| Merge.MaskedMembers | bdms/merge.py:224-230 | The mask keeps exactly the files whose date is reconciled |
| Merge.MaskedAppend | bdms/merge.py:224-230 | The mask keeps listing order |
| Merge.Window | bdms/merge.py:193-199 | The files the listing loop keeps, in order; stated by `Merge.WindowMembers` and `Merge.WindowAppend` |
| Merge.Masked | bdms/merge.py:224-230 | `np.isin` masking, in order; stated by `Merge.MaskedMembers` and `Merge.MaskedAppend` |
| Merge.Collect | bdms/merge.py:189-218 | A missing directory gives nothing; the listing fails, with `ValueError`, exactly when some name in it has no date; otherwise exactly the files in the window |
| Merge.Gather | bdms/merge.py:170-230 | Gathering fails only with a loop error, and succeeds only for base path arguments that pass; the directories, files and reconciled dates it returns are stated by `Merge.GatherShape` |
| Merge.GatherShape | bdms/merge.py:170-230 | Gathering succeeds exactly when both base paths and both listings succeed; then each directory is the root joined with its base path, each file list is the listing of its directory, and the reconciled dates are `intersect_dates` of the two lists' dates |
| Merge.RolloverAsWritten | bdms/merge.py:240-243 | The `replace` call as written: a valid date with the same day, or `ValueError` |
| Merge.Rollover | bdms/merge.py:240-243 | The corrected `replace`: December goes to January of the next year, every other month to the next month |
| Merge.RolloverIsNextMonthStart | bdms/merge.py:240-243 | For a month start, the corrected rollover is the next month start |
| Merge.RolloverAsWrittenAgreement | bdms/merge.py:240-243 | As written, the target agrees with the next month for every month but November, which lands in December of the next year |
| Merge.RolloverNovemberCounterexample | bdms/merge.py:240-243 | 2023-11-01 is taken to be followed by 2024-12-01 |
| Merge.Gate | bdms/merge.py:238-251 | Without the check, or without files of both kinds, the series passes; failures are `IndexError` or `ValueError`. It uses the corrected rollover |
| Merge.GateDecides | bdms/merge.py:238-251 | Once tested, a series whose last month is a valid month start passes exactly when its first day is the next month start |
| Merge.GateAsWritten | bdms/merge.py:238-251 | The same gate over the rollover as written: without the check, or without files of both kinds, the series passes |
| Merge.GateAsWrittenNovember | bdms/merge.py:238-251 | The two gates agree on every last month but November; for November with daily files from the next month start, the corrected gate passes and the written one does not |
| Merge.IntervalsFor | bdms/merge.py:160-165 | `[None]` for non-kline types, the intervals for kline types, `ValueError` exactly for a kline type without intervals |
| Merge.SomeAll | bdms/merge.py:163 | Each interval wrapped, position by position |
| Merge.Product | bdms/merge.py:154 | The product holds exactly the pairs of a requested symbol and key |
| Merge.MergeDatabase | bdms/merge.py:78-284 | The run computes `MergeJobs` |
| Merge.PairsLoop | bdms/merge.py:158-279 | The loop over pairs computes `AllJobs` |
| Merge.PairLoop | bdms/merge.py:159-279 | One pair's body computes `PairJobs` |
| Merge.SeriesLoop | bdms/merge.py:168-279 | The interval loop computes `IntervalJobs` |
| Merge.MergeSeries | bdms/merge.py:170-279 | One interval's body computes `SeriesJob` |
| Merge.MergeJobs | bdms/merge.py:78-284 | The job list of the run, or the first error; computed by `Merge.MergeDatabase` and stated by `Merge.FormatsChecked`, `Merge.JobOrigin` (every job is a requested series' job) and `Merge.MergeJobsComplete` (every requested series' job is listed) |
| Merge.AllJobs | bdms/merge.py:158-279 | The jobs of the loop over pairs; their order is stated by `Merge.AllJobsAppend`, their origin by `Merge.JobOrigin`, their completeness by `Merge.JobReached` and the errors by `Merge.AllJobsErrors` |
| Merge.IntervalJobsAppend | bdms/merge.py:168-279 | The interval loop over `a + b` is the loop over `a` followed by the loop over `b`, or the first error: jobs are listed in interval order |
| Merge.AllJobsAppend | bdms/merge.py:158-279 | The pair loop over `a + b` is the loop over `a` followed by the loop over `b`, or the first error: jobs are listed in the order of the pairs |
| Merge.IntervalJobReached | bdms/merge.py:168-279 | When the interval loop succeeds, the job of every interval that yields one is in its list |
| Merge.PairJobReached | bdms/merge.py:158-279 | When the pair loop succeeds, each pair's interval loop succeeds and its jobs are in the list |
| Merge.JobReached | bdms/merge.py:158-279 | When the pair loop succeeds, the job of every pair and interval of that pair's data type is in the list |
| Merge.MergeJobsComplete | bdms/merge.py:78-279 | When the run succeeds, the job of every requested symbol, key and interval of the key's data type whose series yields one is in the job list |
| Merge.SeriesJob | bdms/merge.py:170-279 | The job of one series, gated by `Merge.Gate`; stated by `Merge.SeriesJobShape`, `Merge.DiscontinuousSeriesSkipped` and `Merge.ContinuousSeriesKept` |
| Merge.JobOf | bdms/merge.py:253-279 | Monthly paths, then daily paths, and the merged file; stated by `Merge.SeriesJobShape` |
| Merge.ListDirectory | bdms/merge.py:189-218 | One listing block computes `Collect` |
| Merge.KeepInWindow | bdms/merge.py:193-199 | The filter loop computes the window over the zipped listing |
| Merge.KeptMonthlyFiles | bdms/merge.py:189-230 | A kept monthly file is listed in the monthly directory, in the window, of the right format and reconciled |
| Merge.KeptDailyFiles | bdms/merge.py:205-230 | The same for daily files |
| Merge.KeptNoOverlap | bdms/merge.py:220-230 | When the reconciled dates share no month, no kept monthly file's month holds a kept daily file |
| Merge.CheckContinuousOnlyGates | bdms/merge.py:201-218 | `check_continuous` does not change the gathered files; with it off, every gathered series yields its job |
| Merge.DiscontinuousSeriesSkipped | bdms/merge.py:238-251 | With the check on and both kinds present, a series whose first day does not follow its last month yields no job |
| Merge.ContinuousSeriesKept | bdms/merge.py:238-279 | With the check on and both kinds present, a series whose first day is the month start after its last month yields its job |
| Merge.SeriesJobAsWritten | bdms/merge.py:170-279 | One series' body as written, gated by `GateAsWritten`; related to `SeriesJob` by the two lemmas below |
| Merge.NovemberSeriesSkippedAsWritten | bdms/merge.py:238-251 | Monthly files up to 2023-11 and daily files from 2023-12-01: the corrected model yields a job, the code as written skips the series |
| Merge.SeriesJobAsWrittenAgreement | bdms/merge.py:170-279 | When the last month is not November, the written and the corrected body give the same result |
| Merge.SeriesJobShape | bdms/merge.py:253-279 | A job lists the kept monthly paths, then the kept daily paths, and writes the series' merged file; no files, no job |
| Merge.SeriesOutputFile | bdms/merge.py:266-278 | The output file of a series is its merged file |
| Merge.JobOrigin | bdms/merge.py:154-279 | Every job comes from one requested symbol, key and interval, and is that series' job |
| Merge.IntervalOrigin | bdms/merge.py:168-279 | Every job of the interval loop is the job of one of its intervals |
| Merge.FormatsChecked | bdms/merge.py:137-140 | An unknown database or output format fails the run with its assertion message before anything else |
| Merge.FormatMessagesAreNotLoopErrors | bdms/merge.py:137-140 | The format assertion messages differ from every error raised inside the loops |
| Merge.AllJobsErrors | bdms/merge.py:158-279 | Errors of the loop over pairs are loop errors |
| Merge.IntervalJobsErrors | bdms/merge.py:168-279 | Errors of the interval loop are loop errors |
| Merge.SeriesJobErrors | bdms/merge.py:170-279 | Errors of one series are loop errors |
| Populate.Earliest | bdms/populate.py:178-180 | The key's first date, which is valid, or `KeyError` when the table lacks the key |
| Populate.KeyStart | bdms/populate.py:178-193 | Fails exactly when the first date or a provided start fails; the resulting start is never before the key's first date |
| Populate.KeyStartDefault | bdms/populate.py:192-193 | Without a provided start, the key starts at its own first date |
| Populate.KeyStartProvided | bdms/populate.py:181-191 | A provided start is kept unless it is earlier than the key's first date, which then replaces it |
| Populate.StartForLatest | bdms/populate.py:175-193 | With a provided start, a key starts at the latest of the provided start and the first dates of the keys up to it |
| Populate.StartForOwnEarliest | bdms/populate.py:175-193 | Without a provided start, every key starts at its own first date |
| Populate.StartForCons | bdms/populate.py:175-193 | The start date of a later key is the one it sees in the loop over the keys after the first |
| Populate.KeyDates | bdms/populate.py:196-206 | `KeyError` for an unknown trading type; monthly dates only when the monthly endpoint lists the type, daily only when the daily one does; the split of the range when both do; the other cases are stated by `Populate.KeyDatesCases` |
| Populate.KeyDatesCases | bdms/populate.py:196-206 | `KeyError("daily")` or `KeyError("monthly")` for a missing period; for a data type only the daily endpoint carries, all dates daily from the daily generator; for one only the monthly endpoint carries, all dates monthly from the monthly generator; for neither, no dates |
| Populate.ColumnsKnown | bdms/populate.py:254-257 | The column lookup cannot raise once `get_base_path` accepted the data type |
| Populate.FileJob | bdms/populate.py:225-263 | Fails exactly on an interval for an unknown period; skips intervals the period does not offer, `1s` for futures, and existing targets; otherwise one job |
| Populate.FileJobShape | bdms/populate.py:234-263 | A job's url mirrors its zip path below the root, the target is beside the zip and the columns are its type's |
| Populate.BasePathIsRelative | bdms/utils.py:61-68 | A base path starts with `data/` |
| Populate.UrlMirrorsZip | bdms/populate.py:246-260 | The url below the archive root is the zip path below the local root |
| Populate.TargetBesideZip | bdms/populate.py:246-247 | The target file is the zip path with its extension replaced |
| Populate.PopulateJobs | bdms/populate.py:164-268 | An unknown storage format fails with its assertion; otherwise the jobs of the key loop, which `Populate.AllKeyJobsOrigin` and `Populate.PopulateJobsComplete` state |
| Populate.IntervalJobsOrigin | bdms/populate.py:225-263 | Every job of the interval loop is the job of one of its intervals |
| Populate.SymbolJobsOrigin | bdms/populate.py:214-263 | Every job of the symbol loop is a job of one symbol and interval |
| Populate.DateJobsOrigin | bdms/populate.py:209-263 | Every job of the date loop is the job of one date, in the period its index gives |
| Populate.SplitJobsOrigin | bdms/populate.py:209-211 | Every job of a split is one of a monthly date in the monthly period or of a daily date in the daily period |
| Populate.AllKeyJobsOrigin | bdms/populate.py:175-263 | Every job comes from some key, built with the start date that key sees |
| Populate.IntervalJobsCons | bdms/populate.py:225-263 | A successful interval loop is the job of its first interval, if any, followed by the loop over the others |
| Populate.IntervalJobReached | bdms/populate.py:225-263 | When the interval loop succeeds, the job of every interval that yields one is in its list |
| Populate.SymbolJobReached | bdms/populate.py:214-263 | When the symbol loop succeeds, each symbol's interval loop succeeds and its jobs are in the list |
| Populate.DateJobReached | bdms/populate.py:209-263 | When the date loop succeeds, each later date's symbol loop, in the period its index gives, succeeds and its jobs are in the list |
| Populate.DateFileReached | bdms/populate.py:214-263 | For one date, the job of every requested symbol and interval of the data type is in the symbol loop's list |
| Populate.SplitIndex | bdms/populate.py:209-211 | A monthly date of a split sits at an index below the monthly count, a daily date at one at or above it, in the dates the loop walks |
| Populate.SplitJobsReached | bdms/populate.py:209-263 | The job of a monthly date in the monthly period, or of a daily date in the daily period, for any requested symbol and interval, is in the split's list |
| Populate.KeyJobsReached | bdms/populate.py:196-263 | The job of any date of a key's range, in its period, requested symbol and interval is in the key's list |
| Populate.KeyJobReached | bdms/populate.py:175-263 | When the key loop succeeds, each key's jobs, with the start date that key sees, are in the list |
| Populate.PopulateJobsComplete | bdms/populate.py:164-263 | When the run succeeds, the job of every key, date of its range in its period, requested symbol and interval whose file is offered and not yet present is in the job list |
| Populate.KlinesNeedIntervals | bdms/populate.py:217-222 | A kline type without intervals raises `ValueError` once a date and a symbol are reached |
| Populate.PopulateDatabase | bdms/populate.py:164-268 | The run computes `PopulateJobs` |
| Populate.KeyLoop | bdms/populate.py:175-263 | The key loop computes `AllKeyJobs`, threading `start_date` |
| Populate.DatesOfKey | bdms/populate.py:196-263 | One key's body computes `KeyJobs` |
| Populate.DateLists | bdms/populate.py:196-206 | The availability test computes `KeyDates` |
| Populate.DateLoop | bdms/populate.py:209-263 | The date loop computes `DateJobs` |
| Populate.DateStep | bdms/populate.py:209-263 | One step of the date loop: the date at the index fails the loop with its error or adds the jobs of its symbol loop |
| Populate.SymbolLoop | bdms/populate.py:214-263 | The symbol loop computes `SymbolJobs` |
| Populate.IntervalLoop | bdms/populate.py:225-263 | The interval loop computes `IntervalJobs` |
| Populate.AllKeyJobs | bdms/populate.py:175-263 | The jobs of the key loop, threading the start date; computed by `Populate.KeyLoop` and stated by `Populate.AllKeyJobsOrigin` and `Populate.KeyJobReached` |
| Populate.DateJobs | bdms/populate.py:209-263 | The jobs of the date loop; computed by `Populate.DateLoop` and stated by `Populate.DateJobsOrigin` and `Populate.DateJobReached` |
| Populate.SymbolJobs | bdms/populate.py:214-263 | The jobs of the symbol loop; computed by `Populate.SymbolLoop` and stated by `Populate.SymbolJobsOrigin` and `Populate.SymbolJobReached` |
| Populate.IntervalJobs | bdms/populate.py:225-263 | The jobs of the interval loop; computed by `Populate.IntervalLoop` and stated by `Populate.IntervalJobsOrigin` and `Populate.IntervalJobReached` |
| Populate.TimeRuleAsWritten | bdms/populate.py:71 | The expression `v * (1 + (v % 10**6 != 0) * 999)`; its meaning is stated by the two lemmas below |
| Populate.TimeRuleAsWrittenCases | bdms/populate.py:71 | As written, a multiple of 10^6 is kept and anything else is multiplied by 1000 |
| Populate.TimeRuleAsWrittenMisreads | bdms/populate.py:71 | As written, a millisecond time on a whole 1000 seconds stays in milliseconds, and a microsecond time is multiplied by 1000 |
| Populate.ToMicros | bdms/populate.py:63-72 | A millisecond timestamp becomes microseconds and a microsecond one stays |
| Populate.ToMicrosIdempotent | bdms/populate.py:63-72 | Converting twice is converting once |
| Populate.ProcessFrame | bdms/populate.py:46-72 | Defined exactly for one value per column in every row; it keeps names and rows, zeroes `ignore`, applies the given time rule to columns whose name contains `time`, and leaves the rest |
| Populate.ProcessCell | bdms/populate.py:50-72 | One cell under the column rules, for a given time rule; `ProcessFrame` states it cell by cell |
| Populate.ProcessFrameAsWrittenKeepsMillis | bdms/populate.py:63-72 | A kline frame with open time 1704066000000: under the written rule the frame is unchanged, under the intended rule the open time becomes 1704066000000000 |
| Populate.IgnoreIsNoTimeColumn | bdms/populate.py:50-72 | The `ignore` rule and the time rule never touch the same column |

## Left out

- The network, the pool and `tqdm`: downloads and merges are job lists, not run. The download outcome and the `success` test at the head of `download_and_process_file` are not modelled.
- File system effects: `os.makedirs`, the zip and csv codecs, the zip member name, and the `DTYPE_MAP` casts. A file is a table or a file that fails to load.
- Job shuffling and `gc.collect`: they change order and memory, not the jobs.
- `warnings.warn` and the "No valid combinations found" print: a skipped series or an empty list is modelled; the message is not.
- `intersect_dates`, `generate_daily_date_range` and `generate_monthly_date_range` are parameters. bdms/merge.py:13-20 and bdms/populate.py:22-26 import them from bdms/utils.py, which defines none of them.
- Likewise bdms/populate.py:17-21 imports `TYPES_MAP`, `INTERVALS_MAP` and `DTYPE_MAP` from bdms/enums.py, which defines none of them. As written, importing populate.py or merge.py therefore fails with `ImportError`; the model describes the modules as if the missing names were supplied.
- `TYPES_MAP`, `INTERVALS_MAP` and the nested `START_DATE_MAP[tt][mdt]` are parameters. enums.py has a flat `START_DATE_MAP`, while populate.py indexes it twice; the model follows the way populate.py uses it.
- The string `timestamp` parse of book depth files (bdms/populate.py:56-61) is left out, because the frame model has integer cells only.
- Cells are integers. Floating-point and string columns are not modelled, and neither is int64 overflow in the time conversion.
- `datetime.today()` is a parameter of the merge run.
- `strptime` is modelled for the fixed-width form `YYYY-MM-DD` only. Python also accepts one-digit months and days; those inputs parse to `None` here.
- `get_valid_combinations` is called with two arguments in populate.py and merge.py, but it takes four. The builders therefore take the (trading type, data type) key list as an input, and the body of `get_valid_combinations` is modelled as written.
- `get_all_symbols` and the modules update.py, conversion.py, clean.py and main.py are not part of this model.
- The date window of the merge listing is inclusive at both ends: this follows the code (`start_date <= d <= end_date`).
- `check_date_range` returns its message rather than raising it. Both callers, `split_date_range` and the merge listing, discard it. The model returns it, and proves that the callers' results do not depend on it.
- The parquet writer's schema test compares column names only, not column types, because cells are not typed here.
- Merge.Gate: it uses the corrected rollover `Merge.Rollover`, not the rollover as written at bdms/merge.py:240-243. The gate as written is `Merge.GateAsWritten`, and `Merge.SeriesJobAsWritten` is the series body with it; where the two differ (a last month of November) is stated by `Merge.GateAsWrittenNovember` and `Merge.NovemberSeriesSkippedAsWritten`. The job lists `Merge.MergeJobs` and `Merge.AllJobs` are built on the corrected gate.
- Populate.ProcessFrame: it takes the time rule as a parameter. The code as written applies `Populate.TimeRuleAsWritten`; the intended rule is `Populate.ToMicros`. `Populate.ProcessFrameAsWrittenKeepsMillis` shows a frame on which the two differ.
- Text.Lower and Text.Upper map ASCII letters only. Python's `lower` and `upper` follow Unicode and can change the length of a string (`'ß'.upper() == 'SS'`). The names they are applied to here are ASCII.
- Error messages are approximate. When the year of the rollover overflows, `replace` raises `year ... is out of range`; the model reuses the day message for it. `strptime` names the rejected text in its message (`time data '...' does not match format '%Y-%m-%d'`); the model's message leaves the quoted text out.
- Merge.SeriesOutputFile: it assumes an upper-case symbol of letters and digits, which is what the archive writes. For a lower-case symbol, the rewrite removes `symbol/` as passed while the base path holds it upper-cased; `Paths.MergedSavePath` models that case too, but no lemma states its result.

## Findings

| source | as written | input that shows it | evidently intended | confidence | as-written member | corrected member |
|---|---|---|---|---|---|---|
| bdms/merge.py:240-243 | the month after `m` is `(m+1)%12 or 12` in year `y+(m+1)//12`, so November gives December of the next year | last monthly file 2023-11-01: the target is 2024-12-01, so a daily run starting 2023-12-01 is reported as not continuous and the series is skipped | the month after November is December of the same year; only December rolls over | not executed | Merge.RolloverAsWritten, Merge.GateAsWritten, Merge.SeriesJobAsWritten (Merge.RolloverNovemberCounterexample, Merge.NovemberSeriesSkippedAsWritten) | Merge.Rollover (Merge.RolloverIsNextMonthStart, Merge.ContinuousSeriesKept), used by Merge.Gate |
| bdms/populate.py:71 | `v * (1 + (v % 10**6 != 0) * 999)` tells units apart by divisibility by 10^6 | millisecond time 1704066000000 (2023-12-31T23:40:00Z, a whole minute) stays in milliseconds; microsecond close time 1735689659999999 is multiplied by 1000 | a millisecond timestamp is multiplied by 1000 and a microsecond one is kept, which magnitude tells apart | not executed | Populate.TimeRuleAsWritten (Populate.TimeRuleAsWrittenMisreads, Populate.ProcessFrameAsWrittenKeepsMillis) | Populate.ToMicros (Populate.ToMicrosIdempotent), passed to Populate.ProcessFrame |
