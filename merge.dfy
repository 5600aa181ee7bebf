/** The job list of `merge_database` (bdms/merge.py): for every symbol, key and
    interval, the archive files of the monthly and the daily directory that lie in
    the date window, reconciled by `intersect_dates`, checked for continuity
    between the last month and the first day, and the merged output file they
    are concatenated into. The file system is a listing of the existing
    directories; `intersect_dates` is a parameter. */
module Merge {
  import opened Wrappers
  import opened Text
  import opened Dates
  import opened Enums
  import opened Filenames
  import opened Paths
  import opened DateRange

  /** A listed file with the date its name yields. */
  datatype Listed = Listed(name: string, date: Date)

  /** The result of `intersect_dates`: `dates["monthly"]` and `dates["daily"]`. */
  datatype Reconciled = Reconciled(monthly: seq<Date>, daily: seq<Date>)

  /** A `(trading_type, market_data_type)` pair the builder iterates over. */
  datatype MergeKey = MergeKey(tradingType: string, marketDataType: string)

  /** One concatenation job: the input paths and the output file. */
  datatype MergeJob = MergeJob(paths: seq<string>, outputFile: string)

  /** Which listed files a run takes: the database format and the date window. */
  datatype Selection = Selection(dataBaseFormat: string, startDate: Date, endDate: Date)

  /** The arguments of one run, after the date arguments are parsed. */
  datatype MergeConfig = MergeConfig(
    rootDir: string, selection: Selection, outputFormat: string,
    outputDir: Option<string>, checkContinuous: bool)

  /** `os.path.exists(dir)` is `dir in listing`; `os.listdir(dir)` is `listing[dir]`. */
  type Listing = map<string, seq<string>>

  /** The function `intersect_dates(monthly_dates, daily_dates)`. */
  type Intersect = (seq<Date>, seq<Date>) -> Reconciled

  // ---------------------------------------------------------------------------
  // Lists of listed files

  /** `zip(all_dates, all_files)`. */
  function Zip(files: seq<string>, dates: seq<Date>): (r: seq<Listed>)
    requires |files| == |dates|
    ensures |r| == |files|
    ensures forall i :: 0 <= i < |r| ==> r[i] == Listed(files[i], dates[i])
  {
    if files == [] then [] else [Listed(files[0], dates[0])] + Zip(files[1..], dates[1..])
  }

  function Names(ls: seq<Listed>): (r: seq<string>)
    ensures |r| == |ls| && forall i :: 0 <= i < |ls| ==> r[i] == ls[i].name
  {
    if ls == [] then [] else Names(ls[..|ls| - 1]) + [ls[|ls| - 1].name]
  }

  function DatesOf(ls: seq<Listed>): (r: seq<Date>)
    ensures |r| == |ls| && forall i :: 0 <= i < |ls| ==> r[i] == ls[i].date
  {
    if ls == [] then [] else DatesOf(ls[..|ls| - 1]) + [ls[|ls| - 1].date]
  }

  /** `[os.path.join(dir, f) for f in names]`. */
  function JoinAll(dir: string, names: seq<string>): (r: seq<string>)
    ensures |r| == |names| && forall i :: 0 <= i < |names| ==> r[i] == Join(dir, names[i])
  {
    if names == [] then [] else JoinAll(dir, names[..|names| - 1]) + [Join(dir, names[|names| - 1])]
  }

  /** The filter of the listing loops: the name ends with the database format and
      `start_date <= d <= end_date`, both ends included. */
  predicate InWindow(sel: Selection, l: Listed) {
    EndsWith(l.name, sel.dataBaseFormat) && LessEq(sel.startDate, l.date) && LessEq(l.date, sel.endDate)
  }

  /** The files the listing loop keeps, in listing order. */
  function Window(sel: Selection, ls: seq<Listed>): seq<Listed> {
    if ls == [] then []
    else Window(sel, ls[..|ls| - 1]) + (if InWindow(sel, ls[|ls| - 1]) then [ls[|ls| - 1]] else [])
  }

  /** `np.array(files)[np.isin(dates, keep)]`: the files whose date is in `keep`, in order. */
  function Masked(ls: seq<Listed>, keep: seq<Date>): seq<Listed> {
    if ls == [] then []
    else Masked(ls[..|ls| - 1], keep) + (if ls[|ls| - 1].date in keep then [ls[|ls| - 1]] else [])
  }

  lemma {:induction false} WindowMembers(sel: Selection, ls: seq<Listed>, l: Listed)
    ensures l in Window(sel, ls) <==> l in ls && InWindow(sel, l)
    decreases |ls|
  {
    if ls != [] {
      assert ls == ls[..|ls| - 1] + [ls[|ls| - 1]];
      WindowMembers(sel, ls[..|ls| - 1], l);
    }
  }

  /** The window keeps the listing order: it distributes over concatenation. */
  lemma {:induction false} WindowAppend(sel: Selection, a: seq<Listed>, b: seq<Listed>)
    ensures Window(sel, a + b) == Window(sel, a) + Window(sel, b)
    decreases |b|
  {
    if b == [] {
      assert a + b == a;
    } else {
      var b' := b[..|b| - 1];
      assert (a + b)[..|a + b| - 1] == a + b';
      assert (a + b)[|a + b| - 1] == b[|b| - 1];
      WindowAppend(sel, a, b');
    }
  }

  lemma {:induction false} MaskedMembers(ls: seq<Listed>, keep: seq<Date>, l: Listed)
    ensures l in Masked(ls, keep) <==> l in ls && l.date in keep
    decreases |ls|
  {
    if ls != [] {
      assert ls == ls[..|ls| - 1] + [ls[|ls| - 1]];
      MaskedMembers(ls[..|ls| - 1], keep, l);
    }
  }

  /** The mask keeps the listing order: it distributes over concatenation. */
  lemma {:induction false} MaskedAppend(a: seq<Listed>, b: seq<Listed>, keep: seq<Date>)
    ensures Masked(a + b, keep) == Masked(a, keep) + Masked(b, keep)
    decreases |b|
  {
    if b == [] {
      assert a + b == a;
    } else {
      var b' := b[..|b| - 1];
      assert (a + b)[..|a + b| - 1] == a + b';
      assert (a + b)[|a + b| - 1] == b[|b| - 1];
      MaskedAppend(a, b', keep);
    }
  }

  // ---------------------------------------------------------------------------
  // One series: gathering the files

  /** The files of one directory that the listing loop keeps, or the `ValueError` of a name
      without a date; a missing directory contributes nothing. */
  function Collect(sel: Selection, listing: Listing, dir: string): (r: Result<seq<Listed>, Error>)
    ensures r.Failure? <==> dir in listing && ExtractDates(listing[dir]).Failure?
    ensures r.Failure? ==> r.error.ValueError?
    ensures r.Success? ==> forall l :: l in r.value <==>
              dir in listing && l.name in listing[dir] && ExtractDate(l.name) == Some(l.date) && InWindow(sel, l)
  {
    if dir !in listing then Success([])
    else
      var files := listing[dir];
      var dates := ExtractDates(files);
      if dates.Failure? then Failure(dates.error)
      else
        var ls := Zip(files, dates.value);
        assert forall l :: l in ls <==> l.name in files && ExtractDate(l.name) == Some(l.date) by {
          forall l ensures l in ls <==> l.name in files && ExtractDate(l.name) == Some(l.date) {
            if l.name in files && ExtractDate(l.name) == Some(l.date) {
              var i :| 0 <= i < |files| && files[i] == l.name;
              assert ls[i] == l;
            }
          }
        }
        forall l ensures l in Window(sel, ls) <==> l in ls && InWindow(sel, l) {
          WindowMembers(sel, ls, l);
        }
        Success(Window(sel, ls))
  }

  /** What one series works on once its files are gathered. */
  datatype Gathered = Gathered(
    basePathMonthly: string, dirMonthly: string, dirDaily: string,
    monthly: seq<Listed>, daily: seq<Listed>, reconciled: Reconciled)

  /** Base paths, directories, the files in the window and the reconciled dates of one series. */
  function Gather(cfg: MergeConfig, listing: Listing, intersect: Intersect,
                  symbol: string, key: MergeKey, interval: Option<string>): (r: Result<Gathered, Error>)
    ensures r.Failure? ==> LoopError(r.error)
    ensures r.Success? ==> BasePathArgsOk(key.tradingType, key.marketDataType, "monthly", interval)
                           && r.value.basePathMonthly == GetBasePath(key.tradingType, key.marketDataType, "monthly", symbol, interval).value
  {
    var bm := GetBasePath(key.tradingType, key.marketDataType, "monthly", symbol, interval);
    if bm.Failure? then Failure(bm.error)
    else
      assert BasePathArgsOk(key.tradingType, key.marketDataType, "daily", interval);
      var bd := GetBasePath(key.tradingType, key.marketDataType, "daily", symbol, interval);
      var dm := Join(cfg.rootDir, bm.value);
      var dd := Join(cfg.rootDir, bd.value);
      var m := Collect(cfg.selection, listing, dm);
      if m.Failure? then Failure(m.error)
      else
        var d := Collect(cfg.selection, listing, dd);
        if d.Failure? then Failure(d.error)
        else Success(Gathered(bm.value, dm, dd, m.value, d.value, intersect(DatesOf(m.value), DatesOf(d.value))))
  }

  /** A gathered series lists the monthly and the daily directory under the root: its files are
      what `Collect` keeps of each, and its reconciled dates are `intersect_dates` of their dates.
      Gathering fails exactly when a base path or a listing does. */
  lemma GatherShape(cfg: MergeConfig, listing: Listing, intersect: Intersect,
                    symbol: string, key: MergeKey, interval: Option<string>)
    ensures var r := Gather(cfg, listing, intersect, symbol, key, interval);
      var bm := GetBasePath(key.tradingType, key.marketDataType, "monthly", symbol, interval);
      var bd := GetBasePath(key.tradingType, key.marketDataType, "daily", symbol, interval);
      r.Success? <==> bm.Success? && bd.Success?
                      && Collect(cfg.selection, listing, Join(cfg.rootDir, bm.value)).Success?
                      && Collect(cfg.selection, listing, Join(cfg.rootDir, bd.value)).Success?
    ensures var r := Gather(cfg, listing, intersect, symbol, key, interval);
      var bd := GetBasePath(key.tradingType, key.marketDataType, "daily", symbol, interval);
      r.Success? ==>
        bd.Success?
        && r.value.dirMonthly == Join(cfg.rootDir, r.value.basePathMonthly)
        && r.value.dirDaily == Join(cfg.rootDir, bd.value)
        && Collect(cfg.selection, listing, r.value.dirMonthly) == Success(r.value.monthly)
        && Collect(cfg.selection, listing, r.value.dirDaily) == Success(r.value.daily)
        && r.value.reconciled == intersect(DatesOf(r.value.monthly), DatesOf(r.value.daily))
  {
  }

  /** The monthly files that survive the reconciliation mask. */
  function KeptMonthly(g: Gathered): seq<Listed> {
    Masked(g.monthly, g.reconciled.monthly)
  }

  function KeptDaily(g: Gathered): seq<Listed> {
    Masked(g.daily, g.reconciled.daily)
  }

  // ---------------------------------------------------------------------------
  // One series: the month rollover and the continuity gate

  /** `last_month.replace(month=(m+1)%12 or 12, year=y+(m+1)//12)` as written; `replace`
      raises `ValueError` when the result is no valid date. */
  function RolloverAsWritten(d: Date): (r: Result<Date, Error>)
    ensures r.Success? ==> Valid(r.value) && r.value.day == d.day
  {
    var m := (d.month + 1) % 12;
    var t := Date(d.year + (d.month + 1) / 12, if m == 0 then 12 else m, d.day);
    if Valid(t) then Success(t) else Failure(ValueError("day is out of range for month"))
  }

  /** The same `replace` with the month advanced as intended: December rolls over to January
      of the next year, every other month to the next month of the same year. */
  function Rollover(d: Date): (r: Result<Date, Error>)
    ensures r.Success? ==> Valid(r.value) && r.value.day == d.day
  {
    var t := if d.month >= 12 then Date(d.year + 1, 1, d.day) else Date(d.year, d.month + 1, d.day);
    if Valid(t) then Success(t) else Failure(ValueError("day is out of range for month"))
  }

  /** For a first-of-month date the corrected rollover is the next month's first day. */
  lemma RolloverIsNextMonthStart(d: Date)
    requires Valid(d) && d.day == 1 && (d.month < 12 || d.year < MaxYear)
    ensures Rollover(d) == Success(NextMonthStart(d))
  {
  }

  /** As written, the target agrees with the next month's first day for every month but
      November; there it lands in December of the following year. */
  lemma RolloverAsWrittenAgreement(d: Date)
    requires Valid(d) && d.day == 1 && d.year < MaxYear
    ensures d.month != 11 ==> RolloverAsWritten(d) == Success(NextMonthStart(d))
    ensures d.month == 11 ==> RolloverAsWritten(d) == Success(Date(d.year + 1, 12, 1))
  {
  }

  /** The November counterexample: the month after 2023-11 is taken to be 2024-12. */
  lemma RolloverNovemberCounterexample()
    ensures RolloverAsWritten(Date(2023, 11, 1)) == Success(Date(2024, 12, 1))
    ensures NextMonthStart(Date(2023, 11, 1)) == Date(2023, 12, 1)
  {
  }

  /** The adjacency test of a series: `Success(true)` lets it through, `Success(false)` skips it
      (the first reconciled day is not the day after the last reconciled month), and indexing an
      empty reconciled list raises `IndexError`. Only a series with both monthly and daily
      files, under `check_continuous`, is tested. */
  function Gate(cfg: MergeConfig, g: Gathered): (r: Result<bool, Error>)
    ensures r.Failure? ==> r.error.IndexError? || r.error.ValueError?
    ensures !(cfg.checkContinuous && |KeptMonthly(g)| > 0 && |KeptDaily(g)| > 0) ==> r == Success(true)
  {
    if cfg.checkContinuous && |KeptMonthly(g)| > 0 && |KeptDaily(g)| > 0 then
      var rec := g.reconciled;
      if |rec.monthly| == 0 then Failure(IndexError)
      else
        var target := Rollover(rec.monthly[|rec.monthly| - 1]);
        if target.Failure? then Failure(target.error)
        else if |rec.daily| == 0 then Failure(IndexError)
        else Success(rec.daily[0] == target.value)
    else Success(true)
  }

  /** The gate as written: the same test with the rollover of bdms/merge.py:240-243 as it
      stands. */
  function GateAsWritten(cfg: MergeConfig, g: Gathered): (r: Result<bool, Error>)
    ensures r.Failure? ==> r.error.IndexError? || r.error.ValueError?
    ensures !(cfg.checkContinuous && |KeptMonthly(g)| > 0 && |KeptDaily(g)| > 0) ==> r == Success(true)
  {
    if cfg.checkContinuous && |KeptMonthly(g)| > 0 && |KeptDaily(g)| > 0 then
      var rec := g.reconciled;
      if |rec.monthly| == 0 then Failure(IndexError)
      else
        var target := RolloverAsWritten(rec.monthly[|rec.monthly| - 1]);
        if target.Failure? then Failure(target.error)
        else if |rec.daily| == 0 then Failure(IndexError)
        else Success(rec.daily[0] == target.value)
    else Success(true)
  }

  /** Once tested, a series passes the gate exactly when its first reconciled day is the first day
      of the month after its last reconciled month. */
  lemma GateDecides(cfg: MergeConfig, g: Gathered)
    requires cfg.checkContinuous && |KeptMonthly(g)| > 0 && |KeptDaily(g)| > 0
    requires |g.reconciled.monthly| > 0 && |g.reconciled.daily| > 0
    requires var last := g.reconciled.monthly[|g.reconciled.monthly| - 1];
      Valid(last) && last.day == 1 && last.year < MaxYear
    ensures Gate(cfg, g) == Success(g.reconciled.daily[0] == NextMonthStart(g.reconciled.monthly[|g.reconciled.monthly| - 1]))
  {
    RolloverIsNextMonthStart(g.reconciled.monthly[|g.reconciled.monthly| - 1]);
  }

  /** The two gates disagree only on a last month of November: as written, a series whose daily
      files start on the first of December is held to be discontinuous. */
  lemma GateAsWrittenNovember(cfg: MergeConfig, g: Gathered)
    requires cfg.checkContinuous && |KeptMonthly(g)| > 0 && |KeptDaily(g)| > 0
    requires |g.reconciled.monthly| > 0 && |g.reconciled.daily| > 0
    requires var last := g.reconciled.monthly[|g.reconciled.monthly| - 1];
      Valid(last) && last.day == 1 && last.year < MaxYear
    ensures var last := g.reconciled.monthly[|g.reconciled.monthly| - 1];
      last.month != 11 ==> GateAsWritten(cfg, g) == Gate(cfg, g)
    ensures var last := g.reconciled.monthly[|g.reconciled.monthly| - 1];
      last.month == 11 && g.reconciled.daily[0] == NextMonthStart(last) ==>
        Gate(cfg, g) == Success(true) && GateAsWritten(cfg, g) == Success(false)
  {
    var last := g.reconciled.monthly[|g.reconciled.monthly| - 1];
    RolloverIsNextMonthStart(last);
    RolloverAsWrittenAgreement(last);
  }

  // ---------------------------------------------------------------------------
  // One series: the job

  /** The job of a gathered series that passed the gate: monthly paths, then daily paths;
      no job without paths. */
  function JobOf(cfg: MergeConfig, symbol: string, g: Gathered): Option<MergeJob> {
    var paths := JoinAll(g.dirMonthly, Names(KeptMonthly(g))) + JoinAll(g.dirDaily, Names(KeptDaily(g)));
    if paths == [] then None
    else Some(MergeJob(paths, MergedOutputFile(cfg.rootDir, g.basePathMonthly, symbol, cfg.outputDir, cfg.outputFormat)))
  }

  /** The job of one (symbol, key, interval), if any, or the error the body raises. */
  function SeriesJob(cfg: MergeConfig, listing: Listing, intersect: Intersect,
                     symbol: string, key: MergeKey, interval: Option<string>): Result<Option<MergeJob>, Error>
  {
    var g := Gather(cfg, listing, intersect, symbol, key, interval);
    if g.Failure? then Failure(g.error)
    else
      var gate := Gate(cfg, g.value);
      if gate.Failure? then Failure(gate.error)
      else if !gate.value then Success(None)
      else Success(JobOf(cfg, symbol, g.value))
  }

  /** The job of one series as the code is written: the same body, gated by `GateAsWritten`. */
  function SeriesJobAsWritten(cfg: MergeConfig, listing: Listing, intersect: Intersect,
                              symbol: string, key: MergeKey, interval: Option<string>): Result<Option<MergeJob>, Error>
  {
    var g := Gather(cfg, listing, intersect, symbol, key, interval);
    if g.Failure? then Failure(g.error)
    else
      var gate := GateAsWritten(cfg, g.value);
      if gate.Failure? then Failure(gate.error)
      else if !gate.value then Success(None)
      else Success(JobOf(cfg, symbol, g.value))
  }

  /** A series with monthly files up to November and daily files from the first of December yields
      its job with the corrected gate, and is skipped as written. */
  lemma NovemberSeriesSkippedAsWritten(cfg: MergeConfig, listing: Listing, intersect: Intersect,
                                       symbol: string, key: MergeKey, interval: Option<string>)
    requires Gather(cfg, listing, intersect, symbol, key, interval).Success?
    requires var g := Gather(cfg, listing, intersect, symbol, key, interval).value;
      var rec := g.reconciled;
      cfg.checkContinuous && |KeptMonthly(g)| > 0 && |KeptDaily(g)| > 0
      && |rec.monthly| > 0 && |rec.daily| > 0
      && rec.monthly[|rec.monthly| - 1] == Date(2023, 11, 1) && rec.daily[0] == Date(2023, 12, 1)
    ensures SeriesJobAsWritten(cfg, listing, intersect, symbol, key, interval) == Success(None)
    ensures SeriesJob(cfg, listing, intersect, symbol, key, interval).Success?
    ensures SeriesJob(cfg, listing, intersect, symbol, key, interval).value.Some?
  {
    var g := Gather(cfg, listing, intersect, symbol, key, interval).value;
    RolloverNovemberCounterexample();
    GateAsWrittenNovember(cfg, g);
  }

  /** Away from November the code as written and the corrected model give the same job. */
  lemma SeriesJobAsWrittenAgreement(cfg: MergeConfig, listing: Listing, intersect: Intersect,
                                    symbol: string, key: MergeKey, interval: Option<string>)
    requires Gather(cfg, listing, intersect, symbol, key, interval).Success?
    requires var g := Gather(cfg, listing, intersect, symbol, key, interval).value;
      var rec := g.reconciled;
      cfg.checkContinuous && |KeptMonthly(g)| > 0 && |KeptDaily(g)| > 0 ==>
        |rec.monthly| > 0 && |rec.daily| > 0
        && Valid(rec.monthly[|rec.monthly| - 1]) && rec.monthly[|rec.monthly| - 1].day == 1
        && rec.monthly[|rec.monthly| - 1].year < MaxYear && rec.monthly[|rec.monthly| - 1].month != 11
    ensures SeriesJobAsWritten(cfg, listing, intersect, symbol, key, interval) == SeriesJob(cfg, listing, intersect, symbol, key, interval)
  {
    var g := Gather(cfg, listing, intersect, symbol, key, interval).value;
    if cfg.checkContinuous && |KeptMonthly(g)| > 0 && |KeptDaily(g)| > 0 {
      GateAsWrittenNovember(cfg, g);
    }
  }

  // ---------------------------------------------------------------------------
  // All series

  /** `[None]` for a non-kline type, the requested intervals for a kline type, and the
      `ValueError` of a kline type without intervals. */
  function IntervalsFor(marketDataType: string, intervals: Option<seq<string>>): (r: Result<seq<Option<string>>, Error>)
    ensures r.Failure? <==> IsKlines(marketDataType) && intervals.None?
    ensures r.Failure? ==> r.error.ValueError?
    ensures r.Success? && !IsKlines(marketDataType) ==> r.value == [None]
    ensures r.Success? && IsKlines(marketDataType) ==>
              |r.value| == |intervals.value| && forall i :: 0 <= i < |r.value| ==> r.value[i] == Some(intervals.value[i])
  {
    if !IsKlines(marketDataType) then Success([None])
    else if intervals.Some? then Success(SomeAll(intervals.value))
    else Failure(ValueError("Intervals must be provided for klines."))
  }

  function SomeAll(ivs: seq<string>): (r: seq<Option<string>>)
    ensures |r| == |ivs| && forall i :: 0 <= i < |ivs| ==> r[i] == Some(ivs[i])
  {
    if ivs == [] then [] else [Some(ivs[0])] + SomeAll(ivs[1..])
  }

  /** `product(symbols, combinations)`: symbol by symbol, every key. */
  function Product(symbols: seq<string>, keys: seq<MergeKey>): (r: seq<(string, MergeKey)>)
    ensures forall p :: p in r <==> p.0 in symbols && p.1 in keys
  {
    if symbols == [] then []
    else
      var row := seq(|keys|, k requires 0 <= k < |keys| => (symbols[0], keys[k]));
      var rest := Product(symbols[1..], keys);
      assert forall p :: p in row <==> p.0 == symbols[0] && p.1 in keys by {
        forall p: (string, MergeKey) | p.0 == symbols[0] && p.1 in keys ensures p in row {
          var k :| 0 <= k < |keys| && keys[k] == p.1;
          assert row[k] == p;
        }
      }
      row + rest
  }

  function OptionJob(o: Option<MergeJob>): seq<MergeJob> {
    if o.Some? then [o.value] else []
  }

  /** `js` followed by the jobs of `r`, or the failure of `r`. */
  function PrependJobs(js: seq<MergeJob>, r: Result<seq<MergeJob>, Error>): Result<seq<MergeJob>, Error> {
    if r.Success? then Success(js + r.value) else r
  }

  lemma PrependNoJobs(r: Result<seq<MergeJob>, Error>)
    ensures PrependJobs([], r) == r
  {
    if r.Success? {
      assert [] + r.value == r.value;
    }
  }

  lemma PrependJobsTwice(a: seq<MergeJob>, b: seq<MergeJob>, r: Result<seq<MergeJob>, Error>)
    ensures PrependJobs(a, PrependJobs(b, r)) == PrependJobs(a + b, r)
  {
    if r.Success? {
      assert a + (b + r.value) == a + b + r.value;
    }
  }

  /** The jobs of one symbol and key over its intervals, in interval order. */
  function IntervalJobs(cfg: MergeConfig, listing: Listing, intersect: Intersect,
                        symbol: string, key: MergeKey, ivs: seq<Option<string>>): Result<seq<MergeJob>, Error>
  {
    if ivs == [] then Success([])
    else
      var j := SeriesJob(cfg, listing, intersect, symbol, key, ivs[0]);
      if j.Failure? then Failure(j.error)
      else PrependJobs(OptionJob(j.value), IntervalJobs(cfg, listing, intersect, symbol, key, ivs[1..]))
  }

  function PairJobs(cfg: MergeConfig, listing: Listing, intersect: Intersect,
                    p: (string, MergeKey), intervals: Option<seq<string>>): Result<seq<MergeJob>, Error>
  {
    var ivs := IntervalsFor(p.1.marketDataType, intervals);
    if ivs.Failure? then Failure(ivs.error)
    else IntervalJobs(cfg, listing, intersect, p.0, p.1, ivs.value)
  }

  function AllJobs(cfg: MergeConfig, listing: Listing, intersect: Intersect,
                   ps: seq<(string, MergeKey)>, intervals: Option<seq<string>>): Result<seq<MergeJob>, Error>
  {
    if ps == [] then Success([])
    else
      var a := PairJobs(cfg, listing, intersect, ps[0], intervals);
      if a.Failure? then a
      else PrependJobs(a.value, AllJobs(cfg, listing, intersect, ps[1..], intervals))
  }

  /** The date arguments: `None` for the start is 1970-01-01, for the end the day of the run. */
  function ParseOr(text: Option<string>, default: Date): Result<Date, Error> {
    if text.None? then Success(default)
    else
      var d := ParseDate(text.value);
      if d.None? then Failure(ValueError(BadDateMessage)) else Success(d.value)
  }

  const Epoch: Date := Date(1970, 1, 1)

  const StorageFormatMessage := "Invalid storage format. Choose from zip, csv, parquet."

  const OutputFormatMessage := "Invalid output format. Choose from csv, parquet."

  /** The job list `merge_database` builds, or the error it raises first. */
  function MergeJobs(rootDir: string, symbols: seq<string>, keys: seq<MergeKey>, intervals: Option<seq<string>>,
                     dataBaseFormat: string, outputFormat: string, startDate: Option<string>, endDate: Option<string>,
                     today: Date, outputDir: Option<string>, checkContinuous: bool,
                     listing: Listing, intersect: Intersect): Result<seq<MergeJob>, Error>
  {
    if dataBaseFormat !in ["zip", "csv", "parquet"] then Failure(AssertionError(StorageFormatMessage))
    else if outputFormat !in ["csv", "parquet"] then Failure(AssertionError(OutputFormatMessage))
    else
      var start := ParseOr(startDate, Epoch);
      if start.Failure? then Failure(start.error)
      else
        var end := ParseOr(endDate, today);
        if end.Failure? then Failure(end.error)
        else
          var cfg := MergeConfig(rootDir, Selection(dataBaseFormat, start.value, end.value), outputFormat, outputDir, checkContinuous);
          AllJobs(cfg, listing, intersect, Product(symbols, keys), intervals)
  }

  // ---------------------------------------------------------------------------
  // The builder

  /** `merge_database` up to the pool: the jobs in loop order, or the first error raised. */
  method MergeDatabase(rootDir: string, symbols: seq<string>, keys: seq<MergeKey>, intervals: Option<seq<string>>,
                       dataBaseFormat: string, outputFormat: string, startDate: Option<string>, endDate: Option<string>,
                       today: Date, outputDir: Option<string>, checkContinuous: bool,
                       listing: Listing, intersect: Intersect)
    returns (r: Result<seq<MergeJob>, Error>)
    ensures r == MergeJobs(rootDir, symbols, keys, intervals, dataBaseFormat, outputFormat, startDate, endDate,
                           today, outputDir, checkContinuous, listing, intersect)
  {
    if dataBaseFormat !in ["zip", "csv", "parquet"] {
      return Failure(AssertionError(StorageFormatMessage));
    }
    if outputFormat !in ["csv", "parquet"] {
      return Failure(AssertionError(OutputFormatMessage));
    }
    var start := ParseOr(startDate, Epoch);
    if start.Failure? {
      return Failure(start.error);
    }
    var end := ParseOr(endDate, today);
    if end.Failure? {
      return Failure(end.error);
    }
    var cfg := MergeConfig(rootDir, Selection(dataBaseFormat, start.value, end.value), outputFormat, outputDir, checkContinuous);
    r := PairsLoop(cfg, listing, intersect, Product(symbols, keys), intervals);
  }

  /** The loop over (symbol, key) pairs. */
  method PairsLoop(cfg: MergeConfig, listing: Listing, intersect: Intersect,
                   combinations: seq<(string, MergeKey)>, intervals: Option<seq<string>>)
    returns (r: Result<seq<MergeJob>, Error>)
    ensures r == AllJobs(cfg, listing, intersect, combinations, intervals)
  {
    var jobs: seq<MergeJob> := [];
    var i := 0;
    assert combinations[i..] == combinations;
    assert PrependJobs(jobs, AllJobs(cfg, listing, intersect, combinations, intervals))
        == AllJobs(cfg, listing, intersect, combinations, intervals) by {
      PrependNoJobs(AllJobs(cfg, listing, intersect, combinations, intervals));
    }
    while i < |combinations|
      invariant 0 <= i <= |combinations|
      invariant AllJobs(cfg, listing, intersect, combinations, intervals)
                == PrependJobs(jobs, AllJobs(cfg, listing, intersect, combinations[i..], intervals))
    {
      var more := PairLoop(cfg, listing, intersect, combinations[i], intervals);
      AllJobsStep(cfg, listing, intersect, combinations, intervals, i, jobs, more);
      if more.Failure? {
        return more;
      }
      jobs := jobs + more.value;
      i := i + 1;
    }
    assert AllJobs(cfg, listing, intersect, combinations[i..], intervals) == Success([]);
    assert jobs + [] == jobs;
    r := Success(jobs);
  }

  /** The body of the loop over pairs: the intervals of the key, then its loop over them. */
  method PairLoop(cfg: MergeConfig, listing: Listing, intersect: Intersect,
                  p: (string, MergeKey), intervals: Option<seq<string>>)
    returns (r: Result<seq<MergeJob>, Error>)
    ensures r == PairJobs(cfg, listing, intersect, p, intervals)
  {
    var ivs := IntervalsFor(p.1.marketDataType, intervals);
    if ivs.Failure? {
      return Failure(ivs.error);
    }
    r := SeriesLoop(cfg, listing, intersect, p.0, p.1, ivs.value);
  }

  /** The interval loop of one symbol and key. */
  method SeriesLoop(cfg: MergeConfig, listing: Listing, intersect: Intersect,
                    symbol: string, key: MergeKey, ivs: seq<Option<string>>)
    returns (r: Result<seq<MergeJob>, Error>)
    ensures r == IntervalJobs(cfg, listing, intersect, symbol, key, ivs)
  {
    var jobs: seq<MergeJob> := [];
    var k := 0;
    assert ivs[k..] == ivs;
    assert PrependJobs(jobs, IntervalJobs(cfg, listing, intersect, symbol, key, ivs))
        == IntervalJobs(cfg, listing, intersect, symbol, key, ivs) by {
      PrependNoJobs(IntervalJobs(cfg, listing, intersect, symbol, key, ivs));
    }
    while k < |ivs|
      invariant 0 <= k <= |ivs|
      invariant IntervalJobs(cfg, listing, intersect, symbol, key, ivs)
                == PrependJobs(jobs, IntervalJobs(cfg, listing, intersect, symbol, key, ivs[k..]))
    {
      var job := MergeSeries(cfg, listing, intersect, symbol, key, ivs[k]);
      IntervalJobsStep(cfg, listing, intersect, symbol, key, ivs, k, jobs, job);
      if job.Failure? {
        return Failure(job.error);
      }
      jobs := jobs + OptionJob(job.value);
      k := k + 1;
    }
    assert IntervalJobs(cfg, listing, intersect, symbol, key, ivs[k..]) == Success([]);
    assert jobs + [] == jobs;
    r := Success(jobs);
  }

  /** One turn of the loop over (symbol, key) pairs: an error ends it, the pair's jobs extend the list. */
  lemma AllJobsStep(cfg: MergeConfig, listing: Listing, intersect: Intersect,
                    ps: seq<(string, MergeKey)>, intervals: Option<seq<string>>, i: nat,
                    jobs: seq<MergeJob>, more: Result<seq<MergeJob>, Error>)
    requires i < |ps| && more == PairJobs(cfg, listing, intersect, ps[i], intervals)
    ensures more.Failure? ==> PrependJobs(jobs, AllJobs(cfg, listing, intersect, ps[i..], intervals)) == Failure(more.error)
    ensures more.Success? ==> PrependJobs(jobs, AllJobs(cfg, listing, intersect, ps[i..], intervals))
                              == PrependJobs(jobs + more.value, AllJobs(cfg, listing, intersect, ps[i + 1..], intervals))
  {
    assert ps[i..][0] == ps[i] && ps[i..][1..] == ps[i + 1..];
    if more.Success? {
      PrependJobsTwice(jobs, more.value, AllJobs(cfg, listing, intersect, ps[i + 1..], intervals));
    }
  }

  /** One turn of the interval loop: an error ends it, a job or none extends the list. */
  lemma IntervalJobsStep(cfg: MergeConfig, listing: Listing, intersect: Intersect,
                         symbol: string, key: MergeKey, ivs: seq<Option<string>>, k: nat,
                         jobs: seq<MergeJob>, job: Result<Option<MergeJob>, Error>)
    requires k < |ivs| && job == SeriesJob(cfg, listing, intersect, symbol, key, ivs[k])
    ensures job.Failure? ==> PrependJobs(jobs, IntervalJobs(cfg, listing, intersect, symbol, key, ivs[k..])) == Failure(job.error)
    ensures job.Success? ==> PrependJobs(jobs, IntervalJobs(cfg, listing, intersect, symbol, key, ivs[k..]))
                             == PrependJobs(jobs + OptionJob(job.value), IntervalJobs(cfg, listing, intersect, symbol, key, ivs[k + 1..]))
  {
    assert ivs[k..][0] == ivs[k] && ivs[k..][1..] == ivs[k + 1..];
    if job.Success? {
      PrependJobsTwice(jobs, OptionJob(job.value), IntervalJobs(cfg, listing, intersect, symbol, key, ivs[k + 1..]));
    }
  }

  /** The body of the interval loop: gather, reconcile, gate, build the job. */
  method MergeSeries(cfg: MergeConfig, listing: Listing, intersect: Intersect,
                     symbol: string, key: MergeKey, interval: Option<string>)
    returns (r: Result<Option<MergeJob>, Error>)
    ensures r == SeriesJob(cfg, listing, intersect, symbol, key, interval)
  {
    var bm := GetBasePath(key.tradingType, key.marketDataType, "monthly", symbol, interval);
    if bm.Failure? {
      return Failure(bm.error);
    }
    assert BasePathArgsOk(key.tradingType, key.marketDataType, "daily", interval);
    var bd := GetBasePath(key.tradingType, key.marketDataType, "daily", symbol, interval);
    var dm := Join(cfg.rootDir, bm.value);
    var dd := Join(cfg.rootDir, bd.value);
    var monthly := ListDirectory(cfg, listing, dm, "monthly");
    if monthly.Failure? {
      return Failure(monthly.error);
    }
    var daily := ListDirectory(cfg, listing, dd, "daily");
    if daily.Failure? {
      return Failure(daily.error);
    }
    var g := Gathered(bm.value, dm, dd, monthly.value, daily.value, intersect(DatesOf(monthly.value), DatesOf(daily.value)));
    assert Gather(cfg, listing, intersect, symbol, key, interval) == Success(g);
    var gate := Gate(cfg, g);
    if gate.Failure? {
      return Failure(gate.error);
    }
    if !gate.value {
      return Success(None);
    }
    r := Success(JobOf(cfg, symbol, g));
  }

  /** One listing block: list the directory if it exists, extract the dates, keep the files in
      the window, and run `check_date_range` on them, whose result is discarded. */
  method ListDirectory(cfg: MergeConfig, listing: Listing, dir: string, mode: string)
    returns (r: Result<seq<Listed>, Error>)
    requires mode == "monthly" || mode == "daily"
    ensures r == Collect(cfg.selection, listing, dir)
  {
    if dir !in listing {
      return Success([]);
    }
    var files := listing[dir];
    var dates := ExtractDatesFromFilenames(files);
    if dates.Failure? {
      return Failure(dates.error);
    }
    var kept := KeepInWindow(cfg.selection, files, dates.value);
    if cfg.checkContinuous {
      var _ := CheckDateRange(DatesOf(kept), mode);
    }
    r := Success(kept);
  }

  /** The loop over `zip(all_dates, all_files)`. */
  method KeepInWindow(sel: Selection, files: seq<string>, dates: seq<Date>) returns (kept: seq<Listed>)
    requires |files| == |dates|
    requires forall i :: 0 <= i < |dates| ==> Valid(dates[i])
    ensures kept == Window(sel, Zip(files, dates))
    ensures forall i :: 0 <= i < |kept| ==> Valid(kept[i].date)
  {
    ghost var ls := Zip(files, dates);
    kept := [];
    var i := 0;
    while i < |files|
      invariant 0 <= i <= |files|
      invariant kept == Window(sel, ls[..i])
      invariant forall j :: 0 <= j < |kept| ==> Valid(kept[j].date)
    {
      var l := Listed(files[i], dates[i]);
      assert ls[..i + 1][..i] == ls[..i] && ls[..i + 1][i] == l;
      if EndsWith(files[i], sel.dataBaseFormat) && LessEq(sel.startDate, dates[i]) && LessEq(dates[i], sel.endDate) {
        kept := kept + [l];
      }
      WindowMembers(sel, ls[..i + 1], l);
      i := i + 1;
    }
    assert ls[..i] == ls;
  }

  // ---------------------------------------------------------------------------
  // Properties of the jobs

  /** A kept monthly file is a name listed in the monthly directory whose date lies in the
      window (both ends included), whose name ends with the database format, and whose date
      the reconciliation kept. */
  lemma KeptMonthlyFiles(cfg: MergeConfig, listing: Listing, intersect: Intersect,
                         symbol: string, key: MergeKey, interval: Option<string>, l: Listed)
    requires Gather(cfg, listing, intersect, symbol, key, interval).Success?
    ensures var g := Gather(cfg, listing, intersect, symbol, key, interval).value;
      l in KeptMonthly(g) <==> g.dirMonthly in listing && l.name in listing[g.dirMonthly]
                               && ExtractDate(l.name) == Some(l.date) && InWindow(cfg.selection, l) && l.date in g.reconciled.monthly
  {
    var g := Gather(cfg, listing, intersect, symbol, key, interval).value;
    MaskedMembers(g.monthly, g.reconciled.monthly, l);
  }

  /** The same for the daily files. */
  lemma KeptDailyFiles(cfg: MergeConfig, listing: Listing, intersect: Intersect,
                       symbol: string, key: MergeKey, interval: Option<string>, l: Listed)
    requires Gather(cfg, listing, intersect, symbol, key, interval).Success?
    ensures var g := Gather(cfg, listing, intersect, symbol, key, interval).value;
      l in KeptDaily(g) <==> g.dirDaily in listing && l.name in listing[g.dirDaily]
                             && ExtractDate(l.name) == Some(l.date) && InWindow(cfg.selection, l) && l.date in g.reconciled.daily
  {
    var g := Gather(cfg, listing, intersect, symbol, key, interval).value;
    MaskedMembers(g.daily, g.reconciled.daily, l);
  }

  /** Reconciled dates that share no month keep monthly and daily files apart. */
  predicate NoOverlap(rec: Reconciled) {
    forall i, j :: 0 <= i < |rec.monthly| && 0 <= j < |rec.daily| ==> FloorMonth(rec.monthly[i]) != FloorMonth(rec.daily[j])
  }

  lemma KeptNoOverlap(g: Gathered, x: Listed, y: Listed)
    requires NoOverlap(g.reconciled)
    requires x in KeptMonthly(g) && y in KeptDaily(g)
    ensures FloorMonth(x.date) != FloorMonth(y.date)
  {
    MaskedMembers(g.monthly, g.reconciled.monthly, x);
    MaskedMembers(g.daily, g.reconciled.daily, y);
    var i :| 0 <= i < |g.reconciled.monthly| && g.reconciled.monthly[i] == x.date;
    var j :| 0 <= j < |g.reconciled.daily| && g.reconciled.daily[j] == y.date;
  }

  /** `check_continuous` plays no part in gathering: the `check_date_range` results are
      discarded. With it off, every gathered series yields its job. */
  lemma CheckContinuousOnlyGates(cfg: MergeConfig, listing: Listing, intersect: Intersect,
                                 symbol: string, key: MergeKey, interval: Option<string>)
    ensures Gather(cfg, listing, intersect, symbol, key, interval)
            == Gather(cfg.(checkContinuous := !cfg.checkContinuous), listing, intersect, symbol, key, interval)
    ensures var g := Gather(cfg, listing, intersect, symbol, key, interval);
      g.Success? ==>
        SeriesJob(cfg.(checkContinuous := false), listing, intersect, symbol, key, interval) == Success(JobOf(cfg, symbol, g.value))
  {
  }

  /** With the check on and both kinds of files present, a series whose first reconciled day
      is not the first day of the month after its last reconciled month yields no job. */
  lemma DiscontinuousSeriesSkipped(cfg: MergeConfig, listing: Listing, intersect: Intersect,
                                   symbol: string, key: MergeKey, interval: Option<string>)
    requires Gather(cfg, listing, intersect, symbol, key, interval).Success?
    requires var g := Gather(cfg, listing, intersect, symbol, key, interval).value;
      var rec := g.reconciled;
      cfg.checkContinuous && |KeptMonthly(g)| > 0 && |KeptDaily(g)| > 0
      && |rec.monthly| > 0 && |rec.daily| > 0
      && Valid(rec.monthly[|rec.monthly| - 1]) && rec.monthly[|rec.monthly| - 1].day == 1
      && rec.monthly[|rec.monthly| - 1].year < MaxYear
      && rec.daily[0] != NextMonthStart(rec.monthly[|rec.monthly| - 1])
    ensures SeriesJob(cfg, listing, intersect, symbol, key, interval) == Success(None)
  {
    var g := Gather(cfg, listing, intersect, symbol, key, interval).value;
    RolloverIsNextMonthStart(g.reconciled.monthly[|g.reconciled.monthly| - 1]);
  }

  /** With the check on and both kinds of files present, a series whose first reconciled day is
      the first day of the month after its last reconciled month yields its job. */
  lemma ContinuousSeriesKept(cfg: MergeConfig, listing: Listing, intersect: Intersect,
                             symbol: string, key: MergeKey, interval: Option<string>)
    requires Gather(cfg, listing, intersect, symbol, key, interval).Success?
    requires var g := Gather(cfg, listing, intersect, symbol, key, interval).value;
      var rec := g.reconciled;
      cfg.checkContinuous && |KeptMonthly(g)| > 0 && |KeptDaily(g)| > 0
      && |rec.monthly| > 0 && |rec.daily| > 0
      && Valid(rec.monthly[|rec.monthly| - 1]) && rec.monthly[|rec.monthly| - 1].day == 1
      && rec.monthly[|rec.monthly| - 1].year < MaxYear
      && rec.daily[0] == NextMonthStart(rec.monthly[|rec.monthly| - 1])
    ensures SeriesJob(cfg, listing, intersect, symbol, key, interval)
            == Success(JobOf(cfg, symbol, Gather(cfg, listing, intersect, symbol, key, interval).value))
  {
    var g := Gather(cfg, listing, intersect, symbol, key, interval).value;
    GateDecides(cfg, g);
  }

  /** A job lists the kept monthly files under the monthly directory, then the kept daily files
      under the daily directory, and writes the merged file of the series; a series whose files
      all fall away yields no job. */
  lemma SeriesJobShape(cfg: MergeConfig, listing: Listing, intersect: Intersect,
                       symbol: string, key: MergeKey, interval: Option<string>)
    requires SeriesJob(cfg, listing, intersect, symbol, key, interval).Success?
    ensures var g := Gather(cfg, listing, intersect, symbol, key, interval).value;
      var o := SeriesJob(cfg, listing, intersect, symbol, key, interval).value;
      (o.Some? ==>
        o.value.paths == JoinAll(g.dirMonthly, Names(KeptMonthly(g))) + JoinAll(g.dirDaily, Names(KeptDaily(g)))
        && o.value.paths != []
        && o.value.outputFile == MergedOutputFile(cfg.rootDir, g.basePathMonthly, symbol, cfg.outputDir, cfg.outputFormat))
      && (KeptMonthly(g) == [] && KeptDaily(g) == [] ==> o.None?)
  {
  }

  /** The output file of a series is its merged file: `merged/{tt-path}/{type}/[{interval}/]{SYMBOL}.{fmt}`
      under the root, or the same without `merged/` under the output directory. */
  lemma SeriesOutputFile(cfg: MergeConfig, listing: Listing, intersect: Intersect,
                         symbol: string, key: MergeKey, interval: Option<string>)
    requires PlainSymbol(symbol)
    requires SeriesJob(cfg, listing, intersect, symbol, key, interval).Success?
    requires SeriesJob(cfg, listing, intersect, symbol, key, interval).value.Some?
    ensures SeriesJob(cfg, listing, intersect, symbol, key, interval).value.value.outputFile
            == Join(Join(if cfg.outputDir.None? then cfg.rootDir else cfg.outputDir.value,
                         JoinSegments((if cfg.outputDir.None? then ["merged"] else [])
                                      + TradingTypeSegments(key.tradingType)[1..] + [key.marketDataType] + IntervalSegments(interval))),
                    symbol + "." + cfg.outputFormat)
  {
    SeriesJobShape(cfg, listing, intersect, symbol, key, interval);
    MergedOutputFileShape(cfg.rootDir, key.tradingType, key.marketDataType, symbol, interval, cfg.outputDir, cfg.outputFormat);
  }

  /** Every job of a successful run comes from one symbol, one key and one interval of the
      run, and is the job of that series. */
  lemma {:induction false} JobOrigin(cfg: MergeConfig, listing: Listing, intersect: Intersect,
                                     ps: seq<(string, MergeKey)>, intervals: Option<seq<string>>, job: MergeJob)
    returns (p: (string, MergeKey), interval: Option<string>)
    requires AllJobs(cfg, listing, intersect, ps, intervals).Success?
    requires job in AllJobs(cfg, listing, intersect, ps, intervals).value
    ensures p in ps
    ensures SeriesJob(cfg, listing, intersect, p.0, p.1, interval) == Success(Some(job))
    ensures IntervalsFor(p.1.marketDataType, intervals).Success? && interval in IntervalsFor(p.1.marketDataType, intervals).value
    decreases |ps|
  {
    var a := PairJobs(cfg, listing, intersect, ps[0], intervals);
    var rest := AllJobs(cfg, listing, intersect, ps[1..], intervals);
    if job in a.value {
      p := ps[0];
      var ivs := IntervalsFor(p.1.marketDataType, intervals).value;
      interval := IntervalOrigin(cfg, listing, intersect, p.0, p.1, ivs, job);
    } else {
      assert job in rest.value;
      p, interval := JobOrigin(cfg, listing, intersect, ps[1..], intervals, job);
    }
  }

  lemma {:induction false} IntervalOrigin(cfg: MergeConfig, listing: Listing, intersect: Intersect,
                                          symbol: string, key: MergeKey, ivs: seq<Option<string>>, job: MergeJob)
    returns (interval: Option<string>)
    requires IntervalJobs(cfg, listing, intersect, symbol, key, ivs).Success?
    requires job in IntervalJobs(cfg, listing, intersect, symbol, key, ivs).value
    ensures interval in ivs
    ensures SeriesJob(cfg, listing, intersect, symbol, key, interval) == Success(Some(job))
    decreases |ivs|
  {
    var j := SeriesJob(cfg, listing, intersect, symbol, key, ivs[0]);
    var rest := IntervalJobs(cfg, listing, intersect, symbol, key, ivs[1..]);
    if job in OptionJob(j.value) {
      interval := ivs[0];
    } else {
      assert job in rest.value;
      interval := IntervalOrigin(cfg, listing, intersect, symbol, key, ivs[1..], job);
    }
  }

  /** The interval loop over `a + b` runs over `a`, then over `b`: it fails as soon as one of
      them does, and otherwise lists the jobs of `a` before those of `b`. */
  lemma {:induction false} IntervalJobsAppend(cfg: MergeConfig, listing: Listing, intersect: Intersect,
                                              symbol: string, key: MergeKey, a: seq<Option<string>>, b: seq<Option<string>>)
    ensures IntervalJobs(cfg, listing, intersect, symbol, key, a + b)
            == if IntervalJobs(cfg, listing, intersect, symbol, key, a).Failure? then IntervalJobs(cfg, listing, intersect, symbol, key, a)
               else PrependJobs(IntervalJobs(cfg, listing, intersect, symbol, key, a).value, IntervalJobs(cfg, listing, intersect, symbol, key, b))
    decreases |a|
  {
    if a == [] {
      assert a + b == b;
      PrependNoJobs(IntervalJobs(cfg, listing, intersect, symbol, key, b));
    } else {
      assert (a + b)[0] == a[0] && (a + b)[1..] == a[1..] + b;
      IntervalJobsAppend(cfg, listing, intersect, symbol, key, a[1..], b);
      var j := SeriesJob(cfg, listing, intersect, symbol, key, a[0]);
      if j.Success? && IntervalJobs(cfg, listing, intersect, symbol, key, a[1..]).Success? {
        PrependJobsTwice(OptionJob(j.value), IntervalJobs(cfg, listing, intersect, symbol, key, a[1..]).value,
                         IntervalJobs(cfg, listing, intersect, symbol, key, b));
      }
    }
  }

  /** The interval loop lists the job of every one of its intervals that yields one. */
  lemma {:induction false} IntervalJobReached(cfg: MergeConfig, listing: Listing, intersect: Intersect,
                                              symbol: string, key: MergeKey, ivs: seq<Option<string>>, k: nat, job: MergeJob)
    requires IntervalJobs(cfg, listing, intersect, symbol, key, ivs).Success?
    requires k < |ivs| && SeriesJob(cfg, listing, intersect, symbol, key, ivs[k]) == Success(Some(job))
    ensures job in IntervalJobs(cfg, listing, intersect, symbol, key, ivs).value
    decreases k
  {
    var j := SeriesJob(cfg, listing, intersect, symbol, key, ivs[0]);
    var rest := IntervalJobs(cfg, listing, intersect, symbol, key, ivs[1..]);
    assert IntervalJobs(cfg, listing, intersect, symbol, key, ivs) == PrependJobs(OptionJob(j.value), rest);
    if k == 0 {
      assert OptionJob(j.value) == [job];
    } else {
      assert ivs[1..][k - 1] == ivs[k];
      IntervalJobReached(cfg, listing, intersect, symbol, key, ivs[1..], k - 1, job);
    }
  }

  /** The loop over pairs over `a + b` runs over `a`, then over `b`. */
  lemma {:induction false} AllJobsAppend(cfg: MergeConfig, listing: Listing, intersect: Intersect,
                                         a: seq<(string, MergeKey)>, b: seq<(string, MergeKey)>, intervals: Option<seq<string>>)
    ensures AllJobs(cfg, listing, intersect, a + b, intervals)
            == if AllJobs(cfg, listing, intersect, a, intervals).Failure? then AllJobs(cfg, listing, intersect, a, intervals)
               else PrependJobs(AllJobs(cfg, listing, intersect, a, intervals).value, AllJobs(cfg, listing, intersect, b, intervals))
    decreases |a|
  {
    if a == [] {
      assert a + b == b;
      PrependNoJobs(AllJobs(cfg, listing, intersect, b, intervals));
    } else {
      assert (a + b)[0] == a[0] && (a + b)[1..] == a[1..] + b;
      AllJobsAppend(cfg, listing, intersect, a[1..], b, intervals);
      var p := PairJobs(cfg, listing, intersect, a[0], intervals);
      if p.Success? && AllJobs(cfg, listing, intersect, a[1..], intervals).Success? {
        PrependJobsTwice(p.value, AllJobs(cfg, listing, intersect, a[1..], intervals).value,
                         AllJobs(cfg, listing, intersect, b, intervals));
      }
    }
  }

  /** The loop over pairs lists every job of each of its pairs. */
  lemma {:induction false} PairJobReached(cfg: MergeConfig, listing: Listing, intersect: Intersect,
                                          ps: seq<(string, MergeKey)>, intervals: Option<seq<string>>, i: nat, job: MergeJob)
    requires AllJobs(cfg, listing, intersect, ps, intervals).Success?
    requires i < |ps|
    ensures PairJobs(cfg, listing, intersect, ps[i], intervals).Success?
    ensures job in PairJobs(cfg, listing, intersect, ps[i], intervals).value ==> job in AllJobs(cfg, listing, intersect, ps, intervals).value
    decreases i
  {
    var a := PairJobs(cfg, listing, intersect, ps[0], intervals);
    var rest := AllJobs(cfg, listing, intersect, ps[1..], intervals);
    if i == 0 {
      assert AllJobs(cfg, listing, intersect, ps, intervals).value == a.value + rest.value;
    } else {
      assert ps[1..][i - 1] == ps[i];
      PairJobReached(cfg, listing, intersect, ps[1..], intervals, i - 1, job);
      assert AllJobs(cfg, listing, intersect, ps, intervals).value == a.value + rest.value;
    }
  }

  /** The loop over pairs lists the job of every pair and interval that yields one. */
  lemma JobReached(cfg: MergeConfig, listing: Listing, intersect: Intersect,
                   ps: seq<(string, MergeKey)>, intervals: Option<seq<string>>, i: nat, k: nat, job: MergeJob)
    requires AllJobs(cfg, listing, intersect, ps, intervals).Success?
    requires i < |ps| && IntervalsFor(ps[i].1.marketDataType, intervals).Success?
    requires k < |IntervalsFor(ps[i].1.marketDataType, intervals).value|
    requires SeriesJob(cfg, listing, intersect, ps[i].0, ps[i].1, IntervalsFor(ps[i].1.marketDataType, intervals).value[k])
             == Success(Some(job))
    ensures job in AllJobs(cfg, listing, intersect, ps, intervals).value
  {
    PairJobReached(cfg, listing, intersect, ps, intervals, i, job);
    IntervalJobReached(cfg, listing, intersect, ps[i].0, ps[i].1, IntervalsFor(ps[i].1.marketDataType, intervals).value, k, job);
  }

  /** A successful run lists the job of every requested symbol, key and interval whose series
      yields one: together with `JobOrigin`, the jobs are exactly those of the requested series. */
  lemma MergeJobsComplete(rootDir: string, symbols: seq<string>, keys: seq<MergeKey>, intervals: Option<seq<string>>,
                          dataBaseFormat: string, outputFormat: string, startDate: Option<string>, endDate: Option<string>,
                          today: Date, outputDir: Option<string>, checkContinuous: bool,
                          listing: Listing, intersect: Intersect,
                          symbol: string, key: MergeKey, interval: Option<string>, job: MergeJob)
    requires MergeJobs(rootDir, symbols, keys, intervals, dataBaseFormat, outputFormat, startDate, endDate,
                       today, outputDir, checkContinuous, listing, intersect).Success?
    requires ParseOr(startDate, Epoch).Success? && ParseOr(endDate, today).Success?
    requires symbol in symbols && key in keys
    requires IntervalsFor(key.marketDataType, intervals).Success? && interval in IntervalsFor(key.marketDataType, intervals).value
    requires SeriesJob(MergeConfig(rootDir, Selection(dataBaseFormat, ParseOr(startDate, Epoch).value, ParseOr(endDate, today).value),
                                   outputFormat, outputDir, checkContinuous),
                       listing, intersect, symbol, key, interval) == Success(Some(job))
    ensures job in MergeJobs(rootDir, symbols, keys, intervals, dataBaseFormat, outputFormat, startDate, endDate,
                             today, outputDir, checkContinuous, listing, intersect).value
  {
    var cfg := MergeConfig(rootDir, Selection(dataBaseFormat, ParseOr(startDate, Epoch).value, ParseOr(endDate, today).value),
                           outputFormat, outputDir, checkContinuous);
    var ps := Product(symbols, keys);
    assert (symbol, key) in ps;
    var i :| 0 <= i < |ps| && ps[i] == (symbol, key);
    var ivs := IntervalsFor(key.marketDataType, intervals).value;
    var k :| 0 <= k < |ivs| && ivs[k] == interval;
    JobReached(cfg, listing, intersect, ps, intervals, i, k, job);
  }

  /** The run fails on an unknown database or output format before it looks at anything else. */
  lemma FormatsChecked(rootDir: string, symbols: seq<string>, keys: seq<MergeKey>, intervals: Option<seq<string>>,
                       dataBaseFormat: string, outputFormat: string, startDate: Option<string>, endDate: Option<string>,
                       today: Date, outputDir: Option<string>, checkContinuous: bool,
                       listing: Listing, intersect: Intersect)
    ensures var r := MergeJobs(rootDir, symbols, keys, intervals, dataBaseFormat, outputFormat, startDate, endDate,
                               today, outputDir, checkContinuous, listing, intersect);
      (dataBaseFormat !in ["zip", "csv", "parquet"] || outputFormat !in ["csv", "parquet"])
      <==> r == Failure(AssertionError(StorageFormatMessage)) || r == Failure(AssertionError(OutputFormatMessage))
  {
    var r := MergeJobs(rootDir, symbols, keys, intervals, dataBaseFormat, outputFormat, startDate, endDate,
                       today, outputDir, checkContinuous, listing, intersect);
    if dataBaseFormat in ["zip", "csv", "parquet"] && outputFormat in ["csv", "parquet"] {
      var start := ParseOr(startDate, Epoch);
      var end := ParseOr(endDate, today);
      if start.Success? && end.Success? {
        var cfg := MergeConfig(rootDir, Selection(dataBaseFormat, start.value, end.value), outputFormat, outputDir, checkContinuous);
        assert r == AllJobs(cfg, listing, intersect, Product(symbols, keys), intervals);
        AllJobsErrors(cfg, listing, intersect, Product(symbols, keys), intervals);
        FormatMessagesAreNotLoopErrors();
      }
    }
  }

  lemma FormatMessagesAreNotLoopErrors()
    ensures !LoopError(AssertionError(StorageFormatMessage)) && !LoopError(AssertionError(OutputFormatMessage))
  {
    assert |StorageFormatMessage| == 54 && |OutputFormatMessage| == 48;
  }

  /** Inside the loops the errors are `ValueError` (a kline type without intervals, a name without
      a date, an impossible rollover), `IndexError`, and the `AssertionError`s of `get_base_path`. */
  predicate LoopError(e: Error) {
    e.ValueError? || e.IndexError? || (e.AssertionError? && BasePathMessage(e.message))
  }

  lemma {:induction false} AllJobsErrors(cfg: MergeConfig, listing: Listing, intersect: Intersect,
                                         ps: seq<(string, MergeKey)>, intervals: Option<seq<string>>)
    ensures AllJobs(cfg, listing, intersect, ps, intervals).Failure? ==> LoopError(AllJobs(cfg, listing, intersect, ps, intervals).error)
    decreases |ps|
  {
    if ps != [] {
      var ivs := IntervalsFor(ps[0].1.marketDataType, intervals);
      if ivs.Success? {
        IntervalJobsErrors(cfg, listing, intersect, ps[0].0, ps[0].1, ivs.value);
      }
      AllJobsErrors(cfg, listing, intersect, ps[1..], intervals);
    }
  }

  lemma {:induction false} IntervalJobsErrors(cfg: MergeConfig, listing: Listing, intersect: Intersect,
                                              symbol: string, key: MergeKey, ivs: seq<Option<string>>)
    ensures IntervalJobs(cfg, listing, intersect, symbol, key, ivs).Failure? ==> LoopError(IntervalJobs(cfg, listing, intersect, symbol, key, ivs).error)
    decreases |ivs|
  {
    if ivs != [] {
      SeriesJobErrors(cfg, listing, intersect, symbol, key, ivs[0]);
      IntervalJobsErrors(cfg, listing, intersect, symbol, key, ivs[1..]);
    }
  }

  lemma SeriesJobErrors(cfg: MergeConfig, listing: Listing, intersect: Intersect,
                        symbol: string, key: MergeKey, interval: Option<string>)
    ensures SeriesJob(cfg, listing, intersect, symbol, key, interval).Failure? ==> LoopError(SeriesJob(cfg, listing, intersect, symbol, key, interval).error)
  {
  }
}
