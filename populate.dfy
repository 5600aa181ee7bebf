/** `populate_database`: the download jobs for every key, date, symbol and interval, with the
    start date clamped to each key's first archived date; and the column rules that
    `download_and_process_file` applies to a downloaded table before storing it. */
module Populate {
  import opened Wrappers
  import opened Text
  import opened Dates
  import opened Enums
  import opened Filenames
  import opened Paths
  import opened DateRange
  import opened Combinations
  import Merge

  // ---------------------------------------------------------------------------
  // Inputs

  /** The tables the builder reads besides the enums module: the data types each trading type
      offers per time period (`TYPES_MAP[tt][period]`), the first archived date of each trading
      type and data type (`START_DATE_MAP[tt][mdt]`) and the intervals each time period offers
      (`INTERVALS_MAP[period]`). */
  datatype Tables = Tables(
    typesMap: map<string, map<string, seq<string>>>,
    startDateMap: map<string, map<string, string>>,
    intervalsMap: map<string, seq<string>>)

  /** Lists of calendar dates, as Python `date` objects always are. */
  type ValidDates = ds: seq<Date> | AllValid(ds) witness []

  /** `generate_daily_date_range` and `generate_monthly_date_range` applied to (start, end). */
  type DateGenerator = (string, string) -> Result<ValidDates, Error>

  /** The arguments that stay fixed over the loops, the tables, the date generators and the set
      of files that already exist under the root. */
  datatype PopulateConfig = PopulateConfig(
    rootDir: string, symbols: seq<string>, intervals: Option<seq<string>>,
    endDate: string, storageFormat: string, existing: set<string>,
    tables: Tables, dailyRange: DateGenerator, monthlyRange: DateGenerator)

  /** One (trading type, market data type) pair of the key list. */
  datatype Key = Key(tradingType: string, marketDataType: string)

  /** The arguments of one `download_and_process_file` call. */
  datatype DownloadJob = DownloadJob(url: string, zipPath: string, filePath: string, cols: seq<string>)

  // ---------------------------------------------------------------------------
  // The start date

  /** The first archived date of a key, parsed; a `KeyError` for a key the table lacks. */
  function Earliest(tables: Tables, key: Key): (r: Result<Date, Error>)
    ensures r.Success? <==> key.tradingType in tables.startDateMap
                            && key.marketDataType in tables.startDateMap[key.tradingType]
                            && ParseDate(tables.startDateMap[key.tradingType][key.marketDataType]).Some?
    ensures r.Success? ==> Valid(r.value)
    ensures r.Failure? ==> r.error in [KeyError(key.tradingType), KeyError(key.marketDataType), ValueError(BadDateMessage)]
  {
    if key.tradingType !in tables.startDateMap then Failure(KeyError(key.tradingType))
    else if key.marketDataType !in tables.startDateMap[key.tradingType] then Failure(KeyError(key.marketDataType))
    else
      var e := ParseDate(tables.startDateMap[key.tradingType][key.marketDataType]);
      if e.None? then Failure(ValueError(BadDateMessage)) else Success(e.value)
  }

  /** The value of `start_date` after the head of the key loop: with a provided start, the
      current value, or the key's first date when the current value is earlier; without one,
      the key's first date. */
  function KeyStart(tables: Tables, provided: bool, current: string, key: Key): (r: Result<string, Error>)
    ensures r.Failure? <==> Earliest(tables, key).Failure? || (provided && ParseDate(current).None?)
    ensures r.Failure? ==> r.error == if Earliest(tables, key).Failure? then Earliest(tables, key).error else ValueError(BadDateMessage)
    ensures r.Success? ==> ParseDate(r.value).Some? && LessEq(Earliest(tables, key).value, ParseDate(r.value).value)
  {
    var e := Earliest(tables, key);
    if e.Failure? then Failure(e.error)
    else
      ParseFormat(e.value);
      if !provided then Success(FormatDate(e.value))
      else
        var p := ParseDate(current);
        if p.None? then Failure(ValueError(BadDateMessage))
        else if Less(p.value, e.value) then Success(FormatDate(e.value))
        else Success(current)
  }

  /** Without a provided start, a key starts at its own first date. */
  lemma KeyStartDefault(tables: Tables, current: string, key: Key)
    requires KeyStart(tables, false, current, key).Success?
    ensures ParseDate(KeyStart(tables, false, current, key).value) == Some(Earliest(tables, key).value)
  {
    ParseFormat(Earliest(tables, key).value);
  }

  /** A provided start is kept as written unless it is earlier than the key's first date, which
      then replaces it: the key starts at the later of the two. */
  lemma KeyStartProvided(tables: Tables, current: string, key: Key)
    requires KeyStart(tables, true, current, key).Success?
    ensures var v := ParseDate(KeyStart(tables, true, current, key).value).value;
            ParseDate(current).Some?
            && LessEq(ParseDate(current).value, v)
            && (v == ParseDate(current).value || v == Earliest(tables, key).value)
            && (LessEq(Earliest(tables, key).value, ParseDate(current).value) ==> KeyStart(tables, true, current, key).value == current)
  {
    ParseFormat(Earliest(tables, key).value);
  }

  /** The start date the key at index `n` works with: `start_date` after every key up to and
      including it has passed the head of the loop. */
  function StartFor(tables: Tables, provided: bool, current: string, keys: seq<Key>, n: nat): Result<string, Error>
    requires n < |keys|
    decreases n
  {
    var s := KeyStart(tables, provided, current, keys[0]);
    if n == 0 || s.Failure? then s else StartFor(tables, provided, s.value, keys[1..], n - 1)
  }

  /** With a provided start, the key at index `n` starts at the latest of the provided start and
      the first dates of the keys up to it: a raised start carries over to the later keys. */
  lemma {:induction false} StartForLatest(tables: Tables, current: string, keys: seq<Key>, n: nat)
    requires n < |keys| && ParseDate(current).Some?
    requires StartFor(tables, true, current, keys, n).Success?
    ensures ParseDate(StartFor(tables, true, current, keys, n).value).Some?
    ensures LessEq(ParseDate(current).value, ParseDate(StartFor(tables, true, current, keys, n).value).value)
    ensures forall j :: 0 <= j <= n ==>
              (Earliest(tables, keys[j]).Success?
               && LessEq(Earliest(tables, keys[j]).value, ParseDate(StartFor(tables, true, current, keys, n).value).value))
    ensures ParseDate(StartFor(tables, true, current, keys, n).value).value == ParseDate(current).value
            || exists j :: 0 <= j <= n && ParseDate(StartFor(tables, true, current, keys, n).value).value == Earliest(tables, keys[j]).value
    decreases n
  {
    var s := KeyStart(tables, true, current, keys[0]);
    var p := ParseDate(current).value;
    KeyStartProvided(tables, current, keys[0]);
    if n > 0 {
      var rest := keys[1..];
      StartForLatest(tables, s.value, rest, n - 1);
      var v := ParseDate(StartFor(tables, true, current, keys, n).value).value;
      var q := ParseDate(s.value).value;
      assert StartFor(tables, true, current, keys, n) == StartFor(tables, true, s.value, rest, n - 1);
      LessEqTransitive(p, q, v);
      LessEqTransitive(Earliest(tables, keys[0]).value, q, v);
      forall j | 1 <= j <= n
        ensures Earliest(tables, keys[j]).Success? && LessEq(Earliest(tables, keys[j]).value, v)
      {
        assert keys[j] == rest[j - 1];
      }
      if v != q {
        var j :| 0 <= j <= n - 1 && v == Earliest(tables, rest[j]).value;
        assert rest[j] == keys[j + 1];
      }
    }
  }

  /** Without a provided start, every key starts at its own first date. */
  lemma {:induction false} StartForOwnEarliest(tables: Tables, current: string, keys: seq<Key>, n: nat)
    requires n < |keys|
    requires StartFor(tables, false, current, keys, n).Success?
    ensures Earliest(tables, keys[n]).Success?
    ensures ParseDate(StartFor(tables, false, current, keys, n).value) == Some(Earliest(tables, keys[n]).value)
    decreases n
  {
    var s := KeyStart(tables, false, current, keys[0]);
    if n > 0 {
      assert StartFor(tables, false, current, keys, n) == StartFor(tables, false, s.value, keys[1..], n - 1);
      StartForOwnEarliest(tables, s.value, keys[1..], n - 1);
      assert keys[1..][n - 1] == keys[n];
    } else {
      KeyStartDefault(tables, current, keys[0]);
    }
  }

  // ---------------------------------------------------------------------------
  // The dates of one key

  /** The two date lists of one key: `split_date_range` when both endpoints carry the data
      type, the daily or the monthly generator when only one does, none when neither does;
      the `KeyError`s of the availability table. */
  function KeyDates(cfg: PopulateConfig, key: Key, start: string): (r: Result<Split, Error>)
    ensures r.Failure? && key.tradingType !in cfg.tables.typesMap ==> r.error == KeyError(key.tradingType)
    ensures r.Success? ==> key.tradingType in cfg.tables.typesMap
                           && "daily" in cfg.tables.typesMap[key.tradingType]
                           && "monthly" in cfg.tables.typesMap[key.tradingType]
    ensures r.Success? ==> AllValid(r.value.monthly) && AllValid(r.value.daily)
    ensures r.Success? && r.value.monthly != [] ==> key.marketDataType in cfg.tables.typesMap[key.tradingType]["monthly"]
    ensures r.Success? && r.value.daily != [] ==> key.marketDataType in cfg.tables.typesMap[key.tradingType]["daily"]
    ensures r.Success? && key.marketDataType in cfg.tables.typesMap[key.tradingType]["monthly"]
                       && key.marketDataType in cfg.tables.typesMap[key.tradingType]["daily"]
            ==> SplitRange(start, cfg.endDate) == r
  {
    var tt := key.tradingType;
    if tt !in cfg.tables.typesMap then Failure(KeyError(tt))
    else if "daily" !in cfg.tables.typesMap[tt] then Failure(KeyError("daily"))
    else if "monthly" !in cfg.tables.typesMap[tt] then Failure(KeyError("monthly"))
    else
      var hasDaily := key.marketDataType in cfg.tables.typesMap[tt]["daily"];
      var hasMonthly := key.marketDataType in cfg.tables.typesMap[tt]["monthly"];
      if hasDaily && hasMonthly then SplitRange(start, cfg.endDate)
      else if hasDaily then
        var ds := cfg.dailyRange(start, cfg.endDate);
        if ds.Failure? then Failure(ds.error) else Success(Split([], ds.value))
      else if hasMonthly then
        var ms := cfg.monthlyRange(start, cfg.endDate);
        if ms.Failure? then Failure(ms.error) else Success(Split(ms.value, []))
      else Success(Split([], []))
  }

  /** The remaining cases of `KeyDates`: a missing period is a `KeyError` naming it; a data type
      only the daily endpoint carries gets the daily range only, one only the monthly endpoint
      carries the monthly range only, and one neither carries no dates. */
  lemma KeyDatesCases(cfg: PopulateConfig, key: Key, start: string)
    ensures key.tradingType in cfg.tables.typesMap && "daily" !in cfg.tables.typesMap[key.tradingType]
            ==> KeyDates(cfg, key, start) == Failure(KeyError("daily"))
    ensures key.tradingType in cfg.tables.typesMap && "daily" in cfg.tables.typesMap[key.tradingType]
            && "monthly" !in cfg.tables.typesMap[key.tradingType]
            ==> KeyDates(cfg, key, start) == Failure(KeyError("monthly"))
    ensures var tt := key.tradingType;
            tt in cfg.tables.typesMap && "daily" in cfg.tables.typesMap[tt] && "monthly" in cfg.tables.typesMap[tt]
            && key.marketDataType in cfg.tables.typesMap[tt]["daily"] && key.marketDataType !in cfg.tables.typesMap[tt]["monthly"]
            ==> KeyDates(cfg, key, start) == (var ds := cfg.dailyRange(start, cfg.endDate);
                                               if ds.Failure? then Failure(ds.error) else Success(Split([], ds.value)))
    ensures var tt := key.tradingType;
            tt in cfg.tables.typesMap && "daily" in cfg.tables.typesMap[tt] && "monthly" in cfg.tables.typesMap[tt]
            && key.marketDataType !in cfg.tables.typesMap[tt]["daily"] && key.marketDataType in cfg.tables.typesMap[tt]["monthly"]
            ==> KeyDates(cfg, key, start) == (var ms := cfg.monthlyRange(start, cfg.endDate);
                                               if ms.Failure? then Failure(ms.error) else Success(Split(ms.value, [])))
    ensures var tt := key.tradingType;
            tt in cfg.tables.typesMap && "daily" in cfg.tables.typesMap[tt] && "monthly" in cfg.tables.typesMap[tt]
            && key.marketDataType !in cfg.tables.typesMap[tt]["daily"] && key.marketDataType !in cfg.tables.typesMap[tt]["monthly"]
            ==> KeyDates(cfg, key, start) == Success(Split([], []))
  {
  }

  /** `"monthly" if i < n_monthly else "daily"`. */
  function PeriodAt(nMonthly: nat, i: nat): string {
    if i < nMonthly then "monthly" else "daily"
  }

  // ---------------------------------------------------------------------------
  // One file

  /** The interval filter of the innermost loop: an interval the time period does not offer
      is skipped, and so is `1s` for a futures trading type. */
  predicate IntervalOffered(tables: Tables, key: Key, period: string, interval: Option<string>)
    requires interval.Some? ==> period in tables.intervalsMap
  {
    (interval.Some? ==> interval.value in tables.intervalsMap[period])
    && !(interval == Some("1s") && key.tradingType != "spot")
  }

  /** `os.path.join(root_dir, base_path)`. */
  function SavePath(cfg: PopulateConfig, key: Key, period: string, symbol: string, interval: Option<string>): string
    requires BasePathArgsOk(key.tradingType, key.marketDataType, period, interval)
  {
    Join(cfg.rootDir, GetBasePath(key.tradingType, key.marketDataType, period, symbol, interval).value)
  }

  /** The file name without extension; `get_file_basename` cannot fail once `get_base_path`
      has accepted the arguments. */
  function Basename(key: Key, period: string, date: Date, symbol: string, interval: Option<string>): string
    requires BasePathArgsOk(key.tradingType, key.marketDataType, period, interval) && Valid(date)
  {
    GetFileBasename(symbol, key.marketDataType, FormatDate(date), period, interval).value
  }

  /** The file in the target format: `{save_path}{basename}.{storage_format}`. */
  function TargetPath(cfg: PopulateConfig, key: Key, period: string, date: Date, symbol: string, interval: Option<string>): string
    requires BasePathArgsOk(key.tradingType, key.marketDataType, period, interval) && Valid(date)
  {
    SavePath(cfg, key, period, symbol, interval) + Basename(key, period, date, symbol, interval) + "." + cfg.storageFormat
  }

  /** The column lookup cannot raise once `get_base_path` has accepted the data type. */
  lemma ColumnsKnown(key: Key, period: string, interval: Option<string>)
    requires BasePathArgsOk(key.tradingType, key.marketDataType, period, interval)
    ensures GetCols(key.tradingType, key.marketDataType).Success?
  {
    ColumnMapKeys();
  }

  /** `os.path.join(root, p + x)` is `os.path.join(root, p) + x` for a relative `p`. */
  lemma JoinExtends(root: string, p: string, x: string)
    requires |p| > 0 && p[0] != '/'
    ensures Join(root, p + x) == Join(root, p) + x
  {
    assert (p + x)[0] == p[0];
  }

  /** The body of the interval loop: the job for one file, none when the interval is skipped or
      the target file exists, or the error the body raises. */
  function FileJob(cfg: PopulateConfig, key: Key, period: string, date: Date, symbol: string, interval: Option<string>)
    : (r: Result<Option<DownloadJob>, Error>)
    requires Valid(date)
    ensures r.Failure? <==> (interval.Some? && period !in cfg.tables.intervalsMap)
                            || (IntervalOffered(cfg.tables, key, period, interval)
                                && !BasePathArgsOk(key.tradingType, key.marketDataType, period, interval))
    ensures r.Failure? ==> r.error == KeyError(period) || (r.error.AssertionError? && BasePathMessage(r.error.message))
    ensures r.Success? && r.value.Some? <==>
              !(interval.Some? && period !in cfg.tables.intervalsMap)
              && IntervalOffered(cfg.tables, key, period, interval)
              && BasePathArgsOk(key.tradingType, key.marketDataType, period, interval)
              && TargetPath(cfg, key, period, date, symbol, interval) !in cfg.existing
  {
    if interval.Some? && period !in cfg.tables.intervalsMap then Failure(KeyError(period))
    else if !IntervalOffered(cfg.tables, key, period, interval) then Success(None)
    else
      var bp := GetBasePath(key.tradingType, key.marketDataType, period, symbol, interval);
      if bp.Failure? then Failure(bp.error)
      else
        var savePath := Join(cfg.rootDir, bp.value);
        var basename := Basename(key, period, date, symbol, interval);
        var zipPath := savePath + basename + ".zip";
        var filePath := savePath + basename + "." + cfg.storageFormat;
        if filePath in cfg.existing then Success(None)
        else
          ColumnsKnown(key, period, interval);
          var url := BaseUrl + bp.value + basename + ".zip";
          Success(Some(DownloadJob(url, zipPath, filePath, GetCols(key.tradingType, key.marketDataType).value)))
  }

  /** A job the body makes downloads from the archive path that mirrors its local zip path under
      the root, converts into the target file beside the zip, and names the columns of its
      data type. */
  lemma FileJobShape(cfg: PopulateConfig, key: Key, period: string, date: Date, symbol: string, interval: Option<string>)
    requires Valid(date) && FileJob(cfg, key, period, date, symbol, interval).Success?
    requires FileJob(cfg, key, period, date, symbol, interval).value.Some?
    ensures BasePathArgsOk(key.tradingType, key.marketDataType, period, interval)
    ensures var job := FileJob(cfg, key, period, date, symbol, interval).value.value;
            job.filePath == TargetPath(cfg, key, period, date, symbol, interval)
            && job.filePath !in cfg.existing
            && StartsWith(job.url, BaseUrl + "data/")
            && job.zipPath == Join(cfg.rootDir, job.url[|BaseUrl|..])
            && job.filePath == job.zipPath[..|job.zipPath| - 4] + "." + cfg.storageFormat
            && EndsWith(job.zipPath, ".zip")
            && job.cols == GetCols(key.tradingType, key.marketDataType).value
  {
    var job := FileJob(cfg, key, period, date, symbol, interval).value.value;
    var bp := GetBasePath(key.tradingType, key.marketDataType, period, symbol, interval).value;
    var basename := Basename(key, period, date, symbol, interval);
    assert job.url == BaseUrl + bp + basename + ".zip";
    assert job.zipPath == Join(cfg.rootDir, bp) + basename + ".zip";
    BasePathIsRelative(key.tradingType, key.marketDataType, period, symbol, interval);
    UrlMirrorsZip(cfg.rootDir, bp, basename);
    TargetBesideZip(Join(cfg.rootDir, bp) + basename, cfg.storageFormat);
  }

  /** A base path is relative: it starts with `data/`. */
  lemma BasePathIsRelative(tradingType: string, marketDataType: string, timePeriod: string, symbol: string, interval: Option<string>)
    requires tradingType in TradingTypes
    ensures StartsWith(JoinSegments(BasePathSegments(tradingType, marketDataType, timePeriod, symbol, interval)), "data/")
  {
    BasePathShape(tradingType, marketDataType, timePeriod, symbol, interval);
    var p := JoinSegments(BasePathSegments(tradingType, marketDataType, timePeriod, symbol, interval));
    var h := if tradingType == "spot" then "data/spot/" else "data/futures/" + tradingType + "/";
    assert h[..5] == "data/";
    assert p[..5] == p[..|h|][..5];
  }

  /** The url below the archive root is the zip path below the local root. */
  lemma UrlMirrorsZip(root: string, bp: string, basename: string)
    requires StartsWith(bp, "data/")
    ensures StartsWith(BaseUrl + bp + basename + ".zip", BaseUrl + "data/")
    ensures Join(root, bp) + basename + ".zip" == Join(root, (BaseUrl + bp + basename + ".zip")[|BaseUrl|..])
  {
    var url := BaseUrl + bp + basename + ".zip";
    assert url == BaseUrl + (bp + (basename + ".zip"));
    assert url[|BaseUrl|..] == bp + (basename + ".zip");
    assert url[..|BaseUrl + "data/"|] == BaseUrl + bp[..5];
    JoinExtends(root, bp, basename + ".zip");
  }

  /** `stem + ".zip"` with the extension replaced is `stem + "." + format`. */
  lemma TargetBesideZip(stem: string, storageFormat: string)
    ensures EndsWith(stem + ".zip", ".zip")
    ensures (stem + ".zip")[..|stem + ".zip"| - 4] + "." + storageFormat == stem + "." + storageFormat
  {
    var z := stem + ".zip";
    assert z[..|z| - 4] == stem;
    assert z[|z| - 4..] == ".zip";
  }

  // ---------------------------------------------------------------------------
  // The loops as values

  function OptionJob(o: Option<DownloadJob>): seq<DownloadJob> {
    if o.Some? then [o.value] else []
  }

  /** `js` followed by the jobs of `r`, or the failure of `r`. */
  function PrependJobs(js: seq<DownloadJob>, r: Result<seq<DownloadJob>, Error>): Result<seq<DownloadJob>, Error> {
    if r.Success? then Success(js + r.value) else r
  }

  lemma PrependNoJobs(r: Result<seq<DownloadJob>, Error>)
    ensures PrependJobs([], r) == r
  {
    if r.Success? {
      assert [] + r.value == r.value;
    }
  }

  lemma PrependJobsTwice(a: seq<DownloadJob>, b: seq<DownloadJob>, r: Result<seq<DownloadJob>, Error>)
    ensures PrependJobs(a, PrependJobs(b, r)) == PrependJobs(a + b, r)
  {
    if r.Success? {
      assert a + (b + r.value) == a + b + r.value;
    }
  }

  /** The jobs of the interval loop, in interval order. */
  function IntervalJobs(cfg: PopulateConfig, key: Key, period: string, date: Date, symbol: string,
                        ivs: seq<Option<string>>): Result<seq<DownloadJob>, Error>
    requires Valid(date)
  {
    if ivs == [] then Success([])
    else
      var j := FileJob(cfg, key, period, date, symbol, ivs[0]);
      if j.Failure? then Failure(j.error)
      else PrependJobs(OptionJob(j.value), IntervalJobs(cfg, key, period, date, symbol, ivs[1..]))
  }

  /** The jobs of the symbol loop; the intervals are determined anew for every symbol. */
  function SymbolJobs(cfg: PopulateConfig, key: Key, period: string, date: Date, symbols: seq<string>)
    : Result<seq<DownloadJob>, Error>
    requires Valid(date)
  {
    if symbols == [] then Success([])
    else
      var ivs := Merge.IntervalsFor(key.marketDataType, cfg.intervals);
      if ivs.Failure? then Failure(ivs.error)
      else
        var a := IntervalJobs(cfg, key, period, date, symbols[0], ivs.value);
        if a.Failure? then a
        else PrependJobs(a.value, SymbolJobs(cfg, key, period, date, symbols[1..]))
  }

  /** The jobs of the date loop from index `i` on, over the monthly dates followed by the daily
      dates; the first `nMonthly` of them are monthly. */
  function DateJobs(cfg: PopulateConfig, key: Key, all: seq<Date>, nMonthly: nat, i: nat): Result<seq<DownloadJob>, Error>
    requires AllValid(all) && i <= |all|
    decreases |all| - i
  {
    if i == |all| then Success([])
    else
      var a := SymbolJobs(cfg, key, PeriodAt(nMonthly, i), all[i], cfg.symbols);
      if a.Failure? then a
      else PrependJobs(a.value, DateJobs(cfg, key, all, nMonthly, i + 1))
  }

  lemma AllValidConcat(a: seq<Date>, b: seq<Date>)
    requires AllValid(a) && AllValid(b)
    ensures AllValid(a + b)
  {
    assert forall i :: 0 <= i < |a + b| ==> (a + b)[i] == if i < |a| then a[i] else b[i - |a|];
  }

  /** The jobs of the date loop over a key's monthly dates followed by its daily dates. */
  function SplitJobs(cfg: PopulateConfig, key: Key, d: Split): Result<seq<DownloadJob>, Error>
    requires AllValid(d.monthly) && AllValid(d.daily)
  {
    var all := d.monthly + d.daily;
    AllValidConcat(d.monthly, d.daily);
    DateJobs(cfg, key, all, |d.monthly|, 0)
  }

  /** The jobs of one key, given the start date it works with. */
  function KeyJobs(cfg: PopulateConfig, key: Key, start: string): Result<seq<DownloadJob>, Error> {
    var d := KeyDates(cfg, key, start);
    if d.Failure? then Failure(d.error) else SplitJobs(cfg, key, d.value)
  }

  /** The jobs of the key loop; `start_date` is threaded from one key to the next. */
  function AllKeyJobs(cfg: PopulateConfig, provided: bool, current: string, keys: seq<Key>): Result<seq<DownloadJob>, Error>
    decreases |keys|
  {
    if keys == [] then Success([])
    else
      var s := KeyStart(cfg.tables, provided, current, keys[0]);
      if s.Failure? then Failure(s.error)
      else
        var a := KeyJobs(cfg, keys[0], s.value);
        if a.Failure? then a
        else PrependJobs(a.value, AllKeyJobs(cfg, provided, s.value, keys[1..]))
  }

  const StorageFormats: seq<string> := ["zip", "csv", "parquet"]

  /** The job list `populate_database` hands to the pool, or the error it raises first. */
  function PopulateJobs(cfg: PopulateConfig, startDate: Option<string>, keys: seq<Key>): (r: Result<seq<DownloadJob>, Error>)
    ensures cfg.storageFormat !in StorageFormats ==> r == Failure(AssertionError(Merge.StorageFormatMessage))
    ensures cfg.storageFormat in StorageFormats ==> r == AllKeyJobs(cfg, startDate.Some?, if startDate.Some? then startDate.value else "", keys)
  {
    if cfg.storageFormat !in StorageFormats then Failure(AssertionError(Merge.StorageFormatMessage))
    else AllKeyJobs(cfg, startDate.Some?, if startDate.Some? then startDate.value else "", keys)
  }

  // ---------------------------------------------------------------------------
  // Where each job comes from

  /** A job the body makes for one date, for some requested symbol and interval. */
  predicate JobOfDate(cfg: PopulateConfig, key: Key, period: string, date: Date, job: DownloadJob)
    requires Valid(date)
  {
    Merge.IntervalsFor(key.marketDataType, cfg.intervals).Success?
    && exists symbol, interval :: symbol in cfg.symbols
         && interval in Merge.IntervalsFor(key.marketDataType, cfg.intervals).value
         && FileJob(cfg, key, period, date, symbol, interval) == Success(Some(job))
  }

  lemma {:induction false} IntervalJobsOrigin(cfg: PopulateConfig, key: Key, period: string, date: Date, symbol: string,
                                              ivs: seq<Option<string>>, job: DownloadJob)
    requires Valid(date)
    requires IntervalJobs(cfg, key, period, date, symbol, ivs).Success?
    requires job in IntervalJobs(cfg, key, period, date, symbol, ivs).value
    ensures exists interval :: interval in ivs && FileJob(cfg, key, period, date, symbol, interval) == Success(Some(job))
  {
    var j := FileJob(cfg, key, period, date, symbol, ivs[0]);
    var rest := IntervalJobs(cfg, key, period, date, symbol, ivs[1..]);
    if job !in OptionJob(j.value) {
      IntervalJobsOrigin(cfg, key, period, date, symbol, ivs[1..], job);
      var interval :| interval in ivs[1..] && FileJob(cfg, key, period, date, symbol, interval) == Success(Some(job));
      assert interval in ivs;
    }
  }

  lemma {:induction false} SymbolJobsOrigin(cfg: PopulateConfig, key: Key, period: string, date: Date,
                                            symbols: seq<string>, job: DownloadJob)
    requires Valid(date)
    requires forall s :: s in symbols ==> s in cfg.symbols
    requires SymbolJobs(cfg, key, period, date, symbols).Success?
    requires job in SymbolJobs(cfg, key, period, date, symbols).value
    ensures JobOfDate(cfg, key, period, date, job)
  {
    var ivs := Merge.IntervalsFor(key.marketDataType, cfg.intervals);
    var a := IntervalJobs(cfg, key, period, date, symbols[0], ivs.value);
    if job in a.value {
      IntervalJobsOrigin(cfg, key, period, date, symbols[0], ivs.value, job);
    } else {
      SymbolJobsOrigin(cfg, key, period, date, symbols[1..], job);
    }
  }

  lemma {:induction false} DateJobsOrigin(cfg: PopulateConfig, key: Key, all: seq<Date>, nMonthly: nat, i: nat, job: DownloadJob)
    requires AllValid(all) && i <= |all|
    requires DateJobs(cfg, key, all, nMonthly, i).Success?
    requires job in DateJobs(cfg, key, all, nMonthly, i).value
    ensures exists k :: i <= k < |all| && JobOfDate(cfg, key, PeriodAt(nMonthly, k), all[k], job)
    decreases |all| - i
  {
    var a := SymbolJobs(cfg, key, PeriodAt(nMonthly, i), all[i], cfg.symbols);
    if job in a.value {
      SymbolJobsOrigin(cfg, key, PeriodAt(nMonthly, i), all[i], cfg.symbols, job);
    } else {
      DateJobsOrigin(cfg, key, all, nMonthly, i + 1, job);
    }
  }

  /** Every job of a split is the job of one of its monthly dates in the monthly period or of
      one of its daily dates in the daily period. */
  lemma SplitJobsOrigin(cfg: PopulateConfig, key: Key, d: Split, job: DownloadJob)
    requires AllValid(d.monthly) && AllValid(d.daily)
    requires SplitJobs(cfg, key, d).Success? && job in SplitJobs(cfg, key, d).value
    ensures (exists k :: 0 <= k < |d.monthly| && JobOfDate(cfg, key, "monthly", d.monthly[k], job))
            || (exists k :: 0 <= k < |d.daily| && JobOfDate(cfg, key, "daily", d.daily[k], job))
  {
    var all := d.monthly + d.daily;
    AllValidConcat(d.monthly, d.daily);
    DateJobsOrigin(cfg, key, all, |d.monthly|, 0, job);
    var k :| 0 <= k < |all| && JobOfDate(cfg, key, PeriodAt(|d.monthly|, k), all[k], job);
    if k < |d.monthly| {
      assert all[k] == d.monthly[k];
    } else {
      assert all[k] == d.daily[k - |d.monthly|];
    }
  }

  /** Every job of the key loop is a job of some key, built with the start date that key sees. */
  lemma {:induction false} AllKeyJobsOrigin(cfg: PopulateConfig, provided: bool, current: string, keys: seq<Key>, job: DownloadJob)
    decreases |keys|
    requires AllKeyJobs(cfg, provided, current, keys).Success?
    requires job in AllKeyJobs(cfg, provided, current, keys).value
    ensures exists n :: 0 <= n < |keys| && StartFor(cfg.tables, provided, current, keys, n).Success?
              && KeyJobs(cfg, keys[n], StartFor(cfg.tables, provided, current, keys, n).value).Success?
              && job in KeyJobs(cfg, keys[n], StartFor(cfg.tables, provided, current, keys, n).value).value
  {
    var s := KeyStart(cfg.tables, provided, current, keys[0]);
    var a := KeyJobs(cfg, keys[0], s.value);
    if job in a.value {
      assert StartFor(cfg.tables, provided, current, keys, 0) == s;
    } else {
      AllKeyJobsOrigin(cfg, provided, s.value, keys[1..], job);
      var n :| 0 <= n < |keys[1..]| && StartFor(cfg.tables, provided, s.value, keys[1..], n).Success?
               && KeyJobs(cfg, keys[1..][n], StartFor(cfg.tables, provided, s.value, keys[1..], n).value).Success?
               && job in KeyJobs(cfg, keys[1..][n], StartFor(cfg.tables, provided, s.value, keys[1..], n).value).value;
      assert StartFor(cfg.tables, provided, current, keys, n + 1) == StartFor(cfg.tables, provided, s.value, keys[1..], n);
      assert keys[1..][n] == keys[n + 1];
    }
  }

  // ---------------------------------------------------------------------------
  // Every file gets its job

  /** A successful interval loop is the job of its first interval, if any, followed by the
      loop over the other intervals. */
  lemma IntervalJobsCons(cfg: PopulateConfig, key: Key, period: string, date: Date, symbol: string,
                         ivs: seq<Option<string>>)
    requires Valid(date) && |ivs| > 0
    requires IntervalJobs(cfg, key, period, date, symbol, ivs).Success?
    ensures FileJob(cfg, key, period, date, symbol, ivs[0]).Success?
    ensures IntervalJobs(cfg, key, period, date, symbol, ivs[1..]).Success?
    ensures IntervalJobs(cfg, key, period, date, symbol, ivs).value
            == OptionJob(FileJob(cfg, key, period, date, symbol, ivs[0]).value)
               + IntervalJobs(cfg, key, period, date, symbol, ivs[1..]).value
  {
  }

  /** The interval loop lists the job of every interval that yields one. */
  lemma {:induction false} IntervalJobReached(cfg: PopulateConfig, key: Key, period: string, date: Date, symbol: string,
                                              ivs: seq<Option<string>>, k: nat, job: DownloadJob)
    requires Valid(date)
    requires IntervalJobs(cfg, key, period, date, symbol, ivs).Success?
    requires k < |ivs| && FileJob(cfg, key, period, date, symbol, ivs[k]) == Success(Some(job))
    ensures job in IntervalJobs(cfg, key, period, date, symbol, ivs).value
    decreases k
  {
    IntervalJobsCons(cfg, key, period, date, symbol, ivs);
    if k == 0 {
      assert OptionJob(FileJob(cfg, key, period, date, symbol, ivs[0]).value) == [job];
    } else {
      assert ivs[1..][k - 1] == ivs[k];
      IntervalJobReached(cfg, key, period, date, symbol, ivs[1..], k - 1, job);
    }
  }

  /** The symbol loop lists every job of the interval loop of each of its symbols. */
  lemma {:induction false} SymbolJobReached(cfg: PopulateConfig, key: Key, period: string, date: Date,
                                            symbols: seq<string>, n: nat, job: DownloadJob)
    requires Valid(date)
    requires SymbolJobs(cfg, key, period, date, symbols).Success?
    requires n < |symbols|
    ensures Merge.IntervalsFor(key.marketDataType, cfg.intervals).Success?
    ensures IntervalJobs(cfg, key, period, date, symbols[n], Merge.IntervalsFor(key.marketDataType, cfg.intervals).value).Success?
    ensures job in IntervalJobs(cfg, key, period, date, symbols[n], Merge.IntervalsFor(key.marketDataType, cfg.intervals).value).value
            ==> job in SymbolJobs(cfg, key, period, date, symbols).value
    decreases n
  {
    var ivs := Merge.IntervalsFor(key.marketDataType, cfg.intervals);
    var a := IntervalJobs(cfg, key, period, date, symbols[0], ivs.value);
    var rest := SymbolJobs(cfg, key, period, date, symbols[1..]);
    assert SymbolJobs(cfg, key, period, date, symbols) == PrependJobs(a.value, rest);
    if n > 0 {
      assert symbols[1..][n - 1] == symbols[n];
      SymbolJobReached(cfg, key, period, date, symbols[1..], n - 1, job);
    }
  }

  /** The date loop from index `i` lists every job of the symbol loop of each date from `i` on,
      in the period the date's index gives. */
  lemma {:induction false} DateJobReached(cfg: PopulateConfig, key: Key, all: seq<Date>, nMonthly: nat, i: nat, k: nat,
                                          job: DownloadJob)
    requires AllValid(all) && i <= k < |all|
    requires DateJobs(cfg, key, all, nMonthly, i).Success?
    ensures SymbolJobs(cfg, key, PeriodAt(nMonthly, k), all[k], cfg.symbols).Success?
    ensures job in SymbolJobs(cfg, key, PeriodAt(nMonthly, k), all[k], cfg.symbols).value
            ==> job in DateJobs(cfg, key, all, nMonthly, i).value
    decreases k - i
  {
    var a := SymbolJobs(cfg, key, PeriodAt(nMonthly, i), all[i], cfg.symbols);
    var rest := DateJobs(cfg, key, all, nMonthly, i + 1);
    assert DateJobs(cfg, key, all, nMonthly, i) == PrependJobs(a.value, rest);
    if k > i {
      DateJobReached(cfg, key, all, nMonthly, i + 1, k, job);
    }
  }

  /** The start date of a later key is the one it sees in the loop over the keys after the first. */
  lemma StartForCons(tables: Tables, provided: bool, current: string, keys: seq<Key>, n: nat)
    requires 0 < n < |keys| && KeyStart(tables, provided, current, keys[0]).Success?
    ensures StartFor(tables, provided, current, keys, n)
            == StartFor(tables, provided, KeyStart(tables, provided, current, keys[0]).value, keys[1..], n - 1)
    ensures keys[1..][n - 1] == keys[n]
  {
  }

  /** The key loop lists every job of each key, built with the start date that key sees. */
  lemma {:induction false} KeyJobReached(cfg: PopulateConfig, provided: bool, current: string, keys: seq<Key>, n: nat,
                                         job: DownloadJob)
    requires AllKeyJobs(cfg, provided, current, keys).Success?
    requires n < |keys|
    ensures StartFor(cfg.tables, provided, current, keys, n).Success?
    ensures KeyJobs(cfg, keys[n], StartFor(cfg.tables, provided, current, keys, n).value).Success?
    ensures job in KeyJobs(cfg, keys[n], StartFor(cfg.tables, provided, current, keys, n).value).value
            ==> job in AllKeyJobs(cfg, provided, current, keys).value
    decreases n
  {
    var s := KeyStart(cfg.tables, provided, current, keys[0]);
    var a := KeyJobs(cfg, keys[0], s.value);
    var rest := AllKeyJobs(cfg, provided, s.value, keys[1..]);
    assert AllKeyJobs(cfg, provided, current, keys) == PrependJobs(a.value, rest);
    if n > 0 {
      KeyJobReached(cfg, provided, s.value, keys[1..], n - 1, job);
      StartForCons(cfg.tables, provided, current, keys, n);
    }
  }

  /** For one date, the symbol loop lists the job of every requested symbol and interval. */
  lemma DateFileReached(cfg: PopulateConfig, key: Key, period: string, date: Date,
                        symbol: string, interval: Option<string>, job: DownloadJob)
    requires Valid(date)
    requires SymbolJobs(cfg, key, period, date, cfg.symbols).Success?
    requires symbol in cfg.symbols
    requires Merge.IntervalsFor(key.marketDataType, cfg.intervals).Success?
    requires interval in Merge.IntervalsFor(key.marketDataType, cfg.intervals).value
    requires FileJob(cfg, key, period, date, symbol, interval) == Success(Some(job))
    ensures job in SymbolJobs(cfg, key, period, date, cfg.symbols).value
  {
    var ivs := Merge.IntervalsFor(key.marketDataType, cfg.intervals).value;
    var n :| 0 <= n < |cfg.symbols| && cfg.symbols[n] == symbol;
    SymbolJobReached(cfg, key, period, date, cfg.symbols, n, job);
    var q :| 0 <= q < |ivs| && ivs[q] == interval;
    IntervalJobReached(cfg, key, period, date, symbol, ivs, q, job);
  }

  /** A monthly date of a split sits at an index below the monthly count, a daily date at one
      at or above it, in the dates the date loop walks. */
  lemma SplitIndex(d: Split, period: string, date: Date) returns (k: nat)
    requires (period == "monthly" && date in d.monthly) || (period == "daily" && date in d.daily)
    ensures k < |d.monthly + d.daily| && (d.monthly + d.daily)[k] == date && PeriodAt(|d.monthly|, k) == period
  {
    if period == "monthly" && date in d.monthly {
      var m :| 0 <= m < |d.monthly| && d.monthly[m] == date;
      k := m;
    } else {
      var m :| 0 <= m < |d.daily| && d.daily[m] == date;
      k := |d.monthly| + m;
    }
  }

  /** Over a key's monthly then daily dates, every job of a monthly date in the monthly period
      and of a daily date in the daily period is listed. */
  lemma SplitJobsReached(cfg: PopulateConfig, key: Key, d: Split, period: string, date: Date,
                         symbol: string, interval: Option<string>, job: DownloadJob)
    requires AllValid(d.monthly) && AllValid(d.daily)
    requires SplitJobs(cfg, key, d).Success?
    requires (period == "monthly" && date in d.monthly) || (period == "daily" && date in d.daily)
    requires symbol in cfg.symbols
    requires Merge.IntervalsFor(key.marketDataType, cfg.intervals).Success?
    requires interval in Merge.IntervalsFor(key.marketDataType, cfg.intervals).value
    requires FileJob(cfg, key, period, date, symbol, interval) == Success(Some(job))
    ensures job in SplitJobs(cfg, key, d).value
  {
    var all := d.monthly + d.daily;
    AllValidConcat(d.monthly, d.daily);
    var k := SplitIndex(d, period, date);
    DateJobReached(cfg, key, all, |d.monthly|, 0, k, job);
    DateFileReached(cfg, key, period, date, symbol, interval, job);
  }

  /** For one key, every job of a date of its range, a requested symbol and an interval is
      among the key's jobs. */
  lemma KeyJobsReached(cfg: PopulateConfig, key: Key, start: string, period: string, date: Date,
                       symbol: string, interval: Option<string>, job: DownloadJob)
    requires KeyJobs(cfg, key, start).Success?
    requires KeyDates(cfg, key, start).Success?
    requires (period == "monthly" && date in KeyDates(cfg, key, start).value.monthly)
             || (period == "daily" && date in KeyDates(cfg, key, start).value.daily)
    requires symbol in cfg.symbols
    requires Merge.IntervalsFor(key.marketDataType, cfg.intervals).Success?
    requires interval in Merge.IntervalsFor(key.marketDataType, cfg.intervals).value
    requires FileJob(cfg, key, period, date, symbol, interval) == Success(Some(job))
    ensures job in KeyJobs(cfg, key, start).value
  {
    var d := KeyDates(cfg, key, start).value;
    SplitJobsReached(cfg, key, d, period, date, symbol, interval, job);
  }

  /** A successful run lists the job of every key, date of the key's range, requested symbol and
      interval whose file is offered and missing (by `FileJob`): together with `AllKeyJobsOrigin`,
      the jobs are exactly those of the files still to fetch. */
  lemma PopulateJobsComplete(cfg: PopulateConfig, startDate: Option<string>, keys: seq<Key>, n: nat,
                             period: string, date: Date, symbol: string, interval: Option<string>, job: DownloadJob)
    requires PopulateJobs(cfg, startDate, keys).Success?
    requires n < |keys|
    requires StartFor(cfg.tables, startDate.Some?, if startDate.Some? then startDate.value else "", keys, n).Success?
    requires var start := StartFor(cfg.tables, startDate.Some?, if startDate.Some? then startDate.value else "", keys, n).value;
      KeyDates(cfg, keys[n], start).Success?
      && ((period == "monthly" && date in KeyDates(cfg, keys[n], start).value.monthly)
          || (period == "daily" && date in KeyDates(cfg, keys[n], start).value.daily))
    requires symbol in cfg.symbols
    requires Merge.IntervalsFor(keys[n].marketDataType, cfg.intervals).Success?
    requires interval in Merge.IntervalsFor(keys[n].marketDataType, cfg.intervals).value
    requires FileJob(cfg, keys[n], period, date, symbol, interval) == Success(Some(job))
    ensures job in PopulateJobs(cfg, startDate, keys).value
  {
    var current := if startDate.Some? then startDate.value else "";
    KeyJobReached(cfg, startDate.Some?, current, keys, n, job);
    var start := StartFor(cfg.tables, startDate.Some?, current, keys, n).value;
    KeyJobsReached(cfg, keys[n], start, period, date, symbol, interval, job);
  }

  /** A kline type without intervals raises as soon as one date and one symbol are reached. */
  lemma KlinesNeedIntervals(cfg: PopulateConfig, key: Key, period: string, date: Date)
    requires Valid(date) && IsKlines(key.marketDataType) && cfg.intervals.None? && cfg.symbols != []
    ensures SymbolJobs(cfg, key, period, date, cfg.symbols) == Failure(ValueError("Intervals must be provided for klines."))
  {
  }

  // ---------------------------------------------------------------------------
  // The builder

  /** `populate_database` up to the pool: the jobs in loop order, or the first error raised.
      An empty list means no pool is started. */
  method PopulateDatabase(cfg: PopulateConfig, startDate: Option<string>, keys: seq<Key>)
    returns (r: Result<seq<DownloadJob>, Error>)
    ensures r == PopulateJobs(cfg, startDate, keys)
  {
    if cfg.storageFormat !in StorageFormats {
      return Failure(AssertionError(Merge.StorageFormatMessage));
    }
    var provided := startDate.Some?;
    var start := if provided then startDate.value else "";
    r := KeyLoop(cfg, provided, start, keys);
  }

  /** The loop over keys, which reassigns `start_date` as it goes. */
  method KeyLoop(cfg: PopulateConfig, provided: bool, first: string, keys: seq<Key>)
    returns (r: Result<seq<DownloadJob>, Error>)
    ensures r == AllKeyJobs(cfg, provided, first, keys)
  {
    var start := first;
    var jobs: seq<DownloadJob> := [];
    var i := 0;
    assert keys[i..] == keys;
    PrependNoJobs(AllKeyJobs(cfg, provided, first, keys));
    while i < |keys|
      invariant 0 <= i <= |keys|
      invariant AllKeyJobs(cfg, provided, first, keys) == PrependJobs(jobs, AllKeyJobs(cfg, provided, start, keys[i..]))
    {
      var key := keys[i];
      ghost var before := start;
      var earliest := Earliest(cfg.tables, key);
      if earliest.Failure? {
        KeyStep(cfg, provided, before, keys, i, jobs);
        return Failure(earliest.error);
      }
      ParseFormat(earliest.value);
      if provided {
        var p := ParseDate(start);
        if p.None? {
          KeyStep(cfg, provided, before, keys, i, jobs);
          return Failure(ValueError(BadDateMessage));
        }
        if Less(p.value, earliest.value) {
          start := FormatDate(earliest.value);
        }
      } else {
        start := FormatDate(earliest.value);
      }
      assert KeyStart(cfg.tables, provided, before, key) == Success(start);
      var more := DatesOfKey(cfg, key, start);
      KeyStep(cfg, provided, before, keys, i, jobs);
      if more.Failure? {
        return more;
      }
      jobs := jobs + more.value;
      i := i + 1;
    }
    assert AllKeyJobs(cfg, provided, start, keys[i..]) == Success([]);
    assert jobs + [] == jobs;
    r := Success(jobs);
  }

  /** One turn of the key loop: an error ends it, the key's jobs extend the list. */
  lemma KeyStep(cfg: PopulateConfig, provided: bool, current: string, keys: seq<Key>, i: nat, jobs: seq<DownloadJob>)
    requires i < |keys|
    ensures var s := KeyStart(cfg.tables, provided, current, keys[i]);
      && (s.Failure? ==> PrependJobs(jobs, AllKeyJobs(cfg, provided, current, keys[i..])) == Failure(s.error))
      && (s.Success? && KeyJobs(cfg, keys[i], s.value).Failure? ==>
            PrependJobs(jobs, AllKeyJobs(cfg, provided, current, keys[i..])) == KeyJobs(cfg, keys[i], s.value))
      && (s.Success? && KeyJobs(cfg, keys[i], s.value).Success? ==>
            PrependJobs(jobs, AllKeyJobs(cfg, provided, current, keys[i..]))
            == PrependJobs(jobs + KeyJobs(cfg, keys[i], s.value).value, AllKeyJobs(cfg, provided, s.value, keys[i + 1..])))
  {
    assert keys[i..][0] == keys[i] && keys[i..][1..] == keys[i + 1..];
    var s := KeyStart(cfg.tables, provided, current, keys[i]);
    if s.Success? && KeyJobs(cfg, keys[i], s.value).Success? {
      PrependJobsTwice(jobs, KeyJobs(cfg, keys[i], s.value).value, AllKeyJobs(cfg, provided, s.value, keys[i + 1..]));
    }
  }

  /** The body of the key loop after the start date: the date lists, then the date loop. */
  method DatesOfKey(cfg: PopulateConfig, key: Key, start: string) returns (r: Result<seq<DownloadJob>, Error>)
    ensures r == KeyJobs(cfg, key, start)
  {
    var d := DateLists(cfg, key, start);
    if d.Failure? {
      return Failure(d.error);
    }
    var all := d.value.monthly + d.value.daily;
    AllValidConcat(d.value.monthly, d.value.daily);
    r := DateLoop(cfg, key, all, |d.value.monthly|);
    assert r == SplitJobs(cfg, key, d.value);
  }

  /** The availability test and the date ranges of one key. */
  method DateLists(cfg: PopulateConfig, key: Key, start: string) returns (r: Result<Split, Error>)
    ensures r == KeyDates(cfg, key, start)
  {
    var tt := key.tradingType;
    if tt !in cfg.tables.typesMap {
      return Failure(KeyError(tt));
    }
    if "daily" !in cfg.tables.typesMap[tt] {
      return Failure(KeyError("daily"));
    }
    var hasDaily := key.marketDataType in cfg.tables.typesMap[tt]["daily"];
    if "monthly" !in cfg.tables.typesMap[tt] {
      return Failure(KeyError("monthly"));
    }
    var hasMonthly := key.marketDataType in cfg.tables.typesMap[tt]["monthly"];
    var monthly: seq<Date> := [];
    var daily: seq<Date> := [];
    if hasDaily && hasMonthly {
      r := SplitDateRange(start, cfg.endDate);
      return;
    } else if hasDaily {
      var ds := cfg.dailyRange(start, cfg.endDate);
      if ds.Failure? {
        return Failure(ds.error);
      }
      daily := ds.value;
    } else if hasMonthly {
      var ms := cfg.monthlyRange(start, cfg.endDate);
      if ms.Failure? {
        return Failure(ms.error);
      }
      monthly := ms.value;
    }
    r := Success(Split(monthly, daily));
  }

  /** One step of the date loop: the date at index `i` fails the loop or adds its jobs. */
  lemma DateStep(cfg: PopulateConfig, key: Key, all: seq<Date>, nMonthly: nat, i: nat, jobs: seq<DownloadJob>)
    requires AllValid(all) && i < |all|
    ensures var a := SymbolJobs(cfg, key, PeriodAt(nMonthly, i), all[i], cfg.symbols);
      && (a.Failure? ==> PrependJobs(jobs, DateJobs(cfg, key, all, nMonthly, i)) == a)
      && (a.Success? ==> PrependJobs(jobs, DateJobs(cfg, key, all, nMonthly, i))
                         == PrependJobs(jobs + a.value, DateJobs(cfg, key, all, nMonthly, i + 1)))
  {
    var a := SymbolJobs(cfg, key, PeriodAt(nMonthly, i), all[i], cfg.symbols);
    if a.Success? {
      PrependJobsTwice(jobs, a.value, DateJobs(cfg, key, all, nMonthly, i + 1));
    }
  }

  /** The loop over the monthly dates followed by the daily dates. */
  method DateLoop(cfg: PopulateConfig, key: Key, all: seq<Date>, nMonthly: nat) returns (r: Result<seq<DownloadJob>, Error>)
    requires AllValid(all)
    ensures r == DateJobs(cfg, key, all, nMonthly, 0)
  {
    var jobs: seq<DownloadJob> := [];
    var i := 0;
    PrependNoJobs(DateJobs(cfg, key, all, nMonthly, 0));
    while i < |all|
      invariant 0 <= i <= |all|
      invariant DateJobs(cfg, key, all, nMonthly, 0) == PrependJobs(jobs, DateJobs(cfg, key, all, nMonthly, i))
    {
      var period := if i < nMonthly then "monthly" else "daily";
      var more := SymbolLoop(cfg, key, period, all[i], cfg.symbols);
      DateStep(cfg, key, all, nMonthly, i, jobs);
      if more.Failure? {
        return more;
      }
      jobs := jobs + more.value;
      i := i + 1;
    }
    assert jobs + [] == jobs;
    r := Success(jobs);
  }

  /** The loop over symbols for one date. */
  method SymbolLoop(cfg: PopulateConfig, key: Key, period: string, date: Date, symbols: seq<string>)
    returns (r: Result<seq<DownloadJob>, Error>)
    requires Valid(date)
    ensures r == SymbolJobs(cfg, key, period, date, symbols)
  {
    var jobs: seq<DownloadJob> := [];
    var k := 0;
    assert symbols[k..] == symbols;
    PrependNoJobs(SymbolJobs(cfg, key, period, date, symbols));
    while k < |symbols|
      invariant 0 <= k <= |symbols|
      invariant SymbolJobs(cfg, key, period, date, symbols) == PrependJobs(jobs, SymbolJobs(cfg, key, period, date, symbols[k..]))
    {
      assert symbols[k..][0] == symbols[k] && symbols[k..][1..] == symbols[k + 1..];
      var ivs := Merge.IntervalsFor(key.marketDataType, cfg.intervals);
      if ivs.Failure? {
        return Failure(ivs.error);
      }
      var more := IntervalLoop(cfg, key, period, date, symbols[k], ivs.value);
      if more.Failure? {
        return more;
      }
      PrependJobsTwice(jobs, more.value, SymbolJobs(cfg, key, period, date, symbols[k + 1..]));
      jobs := jobs + more.value;
      k := k + 1;
    }
    assert symbols[k..] == [];
    assert jobs + [] == jobs;
    r := Success(jobs);
  }

  /** The loop over intervals for one date and symbol. */
  method IntervalLoop(cfg: PopulateConfig, key: Key, period: string, date: Date, symbol: string, ivs: seq<Option<string>>)
    returns (r: Result<seq<DownloadJob>, Error>)
    requires Valid(date)
    ensures r == IntervalJobs(cfg, key, period, date, symbol, ivs)
  {
    var jobs: seq<DownloadJob> := [];
    var k := 0;
    assert ivs[k..] == ivs;
    PrependNoJobs(IntervalJobs(cfg, key, period, date, symbol, ivs));
    while k < |ivs|
      invariant 0 <= k <= |ivs|
      invariant IntervalJobs(cfg, key, period, date, symbol, ivs) == PrependJobs(jobs, IntervalJobs(cfg, key, period, date, symbol, ivs[k..]))
    {
      assert ivs[k..][0] == ivs[k] && ivs[k..][1..] == ivs[k + 1..];
      var job := FileJob(cfg, key, period, date, symbol, ivs[k]);
      if job.Failure? {
        return Failure(job.error);
      }
      PrependJobsTwice(jobs, OptionJob(job.value), IntervalJobs(cfg, key, period, date, symbol, ivs[k + 1..]));
      jobs := jobs + OptionJob(job.value);
      k := k + 1;
    }
    assert ivs[k..] == [];
    assert jobs + [] == jobs;
    r := Success(jobs);
  }

  // ---------------------------------------------------------------------------
  // The column rules of download_and_process_file

  /** A downloaded table with integer cells, one row per line of the file. */
  datatype Frame = Frame(columns: seq<string>, rows: seq<seq<int>>)

  predicate Rectangular(columns: seq<string>, rows: seq<seq<int>>) {
    forall i :: 0 <= i < |rows| ==> |rows[i]| == |columns|
  }

  /** The time rule as written: `v * (1 + (v % 10**6 != 0) * 999)`. */
  function TimeRuleAsWritten(v: int): int {
    v * (1 + (if v % 1000000 != 0 then 1 else 0) * 999)
  }

  /** The rule as written keeps a multiple of 10^6 and multiplies anything else by 1000, so its
      result is always a multiple of 1000. */
  lemma TimeRuleAsWrittenCases(v: int)
    ensures TimeRuleAsWritten(v) == if v % 1000000 == 0 then v else v * 1000
    ensures TimeRuleAsWritten(v) % 1000 == 0
  {
    if v % 1000000 == 0 {
      assert v == 1000 * (1000 * (v / 1000000));
    }
  }

  /** The first millisecond timestamp of the archive era (1973-03-03) and the first microsecond
      one: every millisecond timestamp of the archive lies in [MillisFloor, MicrosFloor) and
      every microsecond one at or above MicrosFloor. */
  const MillisFloor: int := 100000000000
  const MicrosFloor: int := 100000000000000

  /** The time rule as intended: a millisecond timestamp becomes microseconds, a microsecond
      timestamp stays. */
  function ToMicros(v: int): (r: int)
    ensures MillisFloor <= v < MicrosFloor ==> r == v * 1000 && MicrosFloor <= r
    ensures MicrosFloor <= v ==> r == v
  {
    if v < MicrosFloor then v * 1000 else v
  }

  /** Converting twice is converting once, for any archive timestamp. */
  lemma ToMicrosIdempotent(v: int)
    requires MillisFloor <= v
    ensures ToMicros(ToMicros(v)) == ToMicros(v)
  {
  }

  /** The rule as written misreads both units: a millisecond timestamp on a whole 1000 seconds
      stays in milliseconds, and a microsecond kline close time is multiplied by 1000. */
  lemma TimeRuleAsWrittenMisreads()
    ensures MillisFloor <= 1704066000000 < MicrosFloor
    ensures TimeRuleAsWritten(1704066000000) == 1704066000000 != ToMicros(1704066000000)
    ensures MicrosFloor <= 1735689659999999
    ensures TimeRuleAsWritten(1735689659999999) == 1735689659999999000 != ToMicros(1735689659999999)
  {
  }

  /** The value a cell takes: 0 in the `ignore` column, the time rule `timeRule` in a column
      whose name contains `time`, unchanged elsewhere. */
  function ProcessCell(timeRule: int -> int, name: string, v: int): int {
    if name == "ignore" then 0 else if Contains(name, "time") then timeRule(v) else v
  }

  /** `df.columns = cols`, the `ignore` reset and the time conversion `timeRule`: `None` when the
      table does not have one value per column name in every row, which raises inside the
      handler. The code as written passes `TimeRuleAsWritten`; the intended rule is `ToMicros`. */
  function ProcessFrame(timeRule: int -> int, cols: seq<string>, rows: seq<seq<int>>): (r: Option<Frame>)
    ensures r.Some? <==> Rectangular(cols, rows)
    ensures r.Some? ==> r.value.columns == cols && |r.value.rows| == |rows|
    ensures r.Some? ==> forall i, j :: 0 <= i < |rows| && 0 <= j < |cols| ==>
              |r.value.rows[i]| == |cols|
              && r.value.rows[i][j] == (if cols[j] == "ignore" then 0
                                        else if Contains(cols[j], "time") then timeRule(rows[i][j])
                                        else rows[i][j])
  {
    if !Rectangular(cols, rows) then None
    else Some(Frame(cols, seq(|rows|, i requires 0 <= i < |rows| =>
                                seq(|cols|, j requires 0 <= j < |cols| => ProcessCell(timeRule, cols[j], rows[i][j])))))
  }

  /** A kline frame whose open time is a whole 1000 seconds, as the code is written and as
      intended: the written rule leaves the millisecond value in place, the intended one stores
      microseconds. */
  lemma ProcessFrameAsWrittenKeepsMillis()
    ensures ProcessFrame(TimeRuleAsWritten, ["open_time", "open"], [[1704066000000, 42]])
            == Some(Frame(["open_time", "open"], [[1704066000000, 42]]))
    ensures ProcessFrame(ToMicros, ["open_time", "open"], [[1704066000000, 42]])
            == Some(Frame(["open_time", "open"], [[1704066000000000, 42]]))
  {
    assert IsAt("open_time", "time", 5) by {
      assert "open_time"[5..9] == "time";
    }
    assert !Contains("open", "time") by {
      assert "open"[0..4] == "open" && "open"[0] != "time"[0];
    }
    var cols := ["open_time", "open"];
    var rows := [[1704066000000, 42]];
    var w := ProcessFrame(TimeRuleAsWritten, cols, rows).value;
    var c := ProcessFrame(ToMicros, cols, rows).value;
    assert w.rows[0] == [1704066000000, 42];
    assert c.rows[0] == [1704066000000000, 42];
    assert w.rows == [w.rows[0]] && c.rows == [c.rows[0]];
  }

  /** The two rules never touch the same column: `ignore` does not contain `time`. */
  lemma IgnoreIsNoTimeColumn()
    ensures !Contains("ignore", "time")
  {
    assert forall i :: 0 <= i <= 6 ==> !IsAt("ignore", "time", i) by {
      assert "ignore"[2] != 't';
    }
  }
}
