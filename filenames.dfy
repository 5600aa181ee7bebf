/** File names of archive segments: `str(date)`, `strptime(..., "%Y-%m-%d")`,
    `get_file_basename` and its inverse heuristic `extract_dates_from_filenames`
    (bdms/utils.py). */
module Filenames {
  import opened Wrappers
  import opened Text
  import opened Dates
  import opened Enums

  function DigitChar(n: int): char
    requires 0 <= n <= 9
  {
    ('0' as int + n) as char
  }

  function DigitValue(c: char): int {
    c as int - '0' as int
  }

  function Pad2(n: int): string
    requires 0 <= n <= 99
  {
    [DigitChar(n / 10), DigitChar(n % 10)]
  }

  function Pad4(n: int): string
    requires 0 <= n <= 9999
  {
    [DigitChar(n / 1000), DigitChar(n / 100 % 10), DigitChar(n / 10 % 10), DigitChar(n % 10)]
  }

  /** `str(d)`: ISO format `YYYY-MM-DD`. */
  function FormatDate(d: Date): (s: string)
    requires Valid(d)
    ensures |s| == 10 && s[4] == '-' && s[7] == '-'
  {
    Pad4(d.year) + "-" + Pad2(d.month) + "-" + Pad2(d.day)
  }

  /** `datetime.strptime(s, "%Y-%m-%d").date()` on fixed-width input; `None` where Python raises. */
  function ParseDate(s: string): (r: Option<Date>)
    ensures r.Some? ==> Valid(r.value)
  {
    if |s| == 10 && s[4] == '-' && s[7] == '-'
       && IsDigit(s[0]) && IsDigit(s[1]) && IsDigit(s[2]) && IsDigit(s[3])
       && IsDigit(s[5]) && IsDigit(s[6]) && IsDigit(s[8]) && IsDigit(s[9])
    then
      var d := Date(
        1000 * DigitValue(s[0]) + 100 * DigitValue(s[1]) + 10 * DigitValue(s[2]) + DigitValue(s[3]),
        10 * DigitValue(s[5]) + DigitValue(s[6]),
        10 * DigitValue(s[8]) + DigitValue(s[9]));
      if Valid(d) then Some(d) else None
    else None
  }

  /** Parsing undoes formatting. */
  lemma ParseFormat(d: Date)
    requires Valid(d)
    ensures ParseDate(FormatDate(d)) == Some(d)
  {
    var y := d.year;
    assert y / 10 == 10 * (y / 100) + y / 10 % 10;
    assert y / 100 == 10 * (y / 1000) + y / 100 % 10;
  }

  /** Formatting undoes parsing: a parsed string is in canonical form. */
  lemma FormatParse(s: string)
    requires ParseDate(s).Some?
    ensures FormatDate(ParseDate(s).value) == s
  {
    var d := ParseDate(s).value;
    DigitsOf(s[0]); DigitsOf(s[1]); DigitsOf(s[2]); DigitsOf(s[3]);
    DigitsOf(s[5]); DigitsOf(s[6]); DigitsOf(s[8]); DigitsOf(s[9]);
    Pad4Of(DigitValue(s[0]), DigitValue(s[1]), DigitValue(s[2]), DigitValue(s[3]));
    Pad2Of(DigitValue(s[5]), DigitValue(s[6]));
    Pad2Of(DigitValue(s[8]), DigitValue(s[9]));
    assert Pad4(d.year) == s[..4];
    assert Pad2(d.month) == s[5..7];
    assert Pad2(d.day) == s[8..];
    assert s == s[..4] + "-" + s[5..7] + "-" + s[8..];
  }

  lemma DigitsOf(c: char)
    requires IsDigit(c)
    ensures 0 <= DigitValue(c) <= 9 && DigitChar(DigitValue(c)) == c
  {
  }

  lemma Pad2Of(a: int, b: int)
    requires 0 <= a <= 9 && 0 <= b <= 9
    ensures Pad2(10 * a + b) == [DigitChar(a), DigitChar(b)]
  {
  }

  lemma Pad4Of(a: int, b: int, c: int, e: int)
    requires 0 <= a <= 9 && 0 <= b <= 9 && 0 <= c <= 9 && 0 <= e <= 9
    ensures Pad4(1000 * a + 100 * b + 10 * c + e) == [DigitChar(a), DigitChar(b), DigitChar(c), DigitChar(e)]
  {
    var n := 1000 * a + 100 * b + 10 * c + e;
    assert 1000 * a <= n < 1000 * a + 1000;
    assert n / 1000 == a;
    assert 100 * (10 * a + b) <= n < 100 * (10 * a + b) + 100;
    assert n / 100 == 10 * a + b;
    assert 10 * (100 * a + 10 * b + c) <= n < 10 * (100 * a + 10 * b + c) + 10;
    assert n / 10 == 100 * a + 10 * b + c;
  }

  // ---------------------------------------------------------------------------
  // extract_dates_from_filenames

  /** `"".join(s.split("."))`: the dots of `s` removed, every other character kept. */
  function RemoveDots(s: string): (r: string)
    ensures '.' !in r
    ensures '.' !in s ==> r == s
    ensures multiset(r) == multiset(s)['.' := 0]
  {
    if s == [] then []
    else
      assert s == [s[0]] + s[1..];
      (if s[0] == '.' then [] else [s[0]]) + RemoveDots(s[1..])
  }

  /** Removing the dots keeps the order of the other characters: it distributes over
      concatenation. */
  lemma {:induction false} RemoveDotsAppend(a: string, b: string)
    ensures RemoveDots(a + b) == RemoveDots(a) + RemoveDots(b)
    decreases |a|
  {
    if a != [] {
      var head: string := if a[0] == '.' then [] else [a[0]];
      assert (a + b)[0] == a[0] && (a + b)[1..] == a[1..] + b;
      assert RemoveDots(a + b) == head + RemoveDots(a[1..] + b);
      RemoveDotsAppend(a[1..], b);
      assert RemoveDots(a) == head + RemoveDots(a[1..]);
    } else {
      assert a + b == b;
    }
  }

  /** The index of the last `c` in `s`. */
  function LastIndexOf(s: string, c: char): (k: nat)
    requires c in s
    ensures k < |s| && s[k] == c
    ensures forall j :: k < j < |s| ==> s[j] != c
  {
    if s[|s| - 1] == c then |s| - 1 else LastIndexOf(s[..|s| - 1], c)
  }

  /** `"".join(f.split(".")[:-1])`: everything before the last dot, dots removed. */
  function DropExtension(f: string): string {
    if '.' in f then RemoveDots(f[..LastIndexOf(f, '.')]) else []
  }

  /** `c[i:]` for the result `i` of `c.find(...)`, which may be -1. */
  function SliceFrom(c: string, i: int): string
    requires -1 <= i <= |c|
  {
    if i >= 0 then c[i..] else if |c| > 0 then c[|c| - 1..] else []
  }

  /** The date one file name yields; `None` where `strptime` raises. */
  function ExtractDate(f: string): (r: Option<Date>)
    ensures r.Some? ==> Valid(r.value)
  {
    var c := DropExtension(f);
    var tail := SliceFrom(c, Find(c, "20"));
    var text := if |tail| == 7 then tail + "-01" else tail;
    ParseDate(text)
  }

  /** The message of the `ValueError` that `strptime` raises on a name without a date. */
  const BadDateMessage: string := "time data does not match format '%Y-%m-%d'"

  /** `extract_dates_from_filenames` as a value: one date per name, in input order, or the
      `ValueError` of the first name without a parsable date. */
  function ExtractDates(filenames: seq<string>): (r: Result<seq<Date>, Error>)
    ensures r.Success? <==> forall i :: 0 <= i < |filenames| ==> ExtractDate(filenames[i]).Some?
    ensures r.Success? ==> |r.value| == |filenames|
    ensures r.Success? ==> forall i :: 0 <= i < |filenames| ==> ExtractDate(filenames[i]) == Some(r.value[i])
    ensures r.Failure? ==> r.error == ValueError(BadDateMessage)
  {
    if filenames == [] then Success([])
    else
      var d := ExtractDate(filenames[0]);
      var rest := ExtractDates(filenames[1..]);
      if d.None? then Failure(ValueError(BadDateMessage))
      else if rest.Failure? then
        ExtractDatesRestFails(filenames, ExtractDate);
        rest
      else
        ExtractDatesCons(filenames, ExtractDate, d.value, rest.value);
        Success([d.value] + rest.value)
  }

  /** A later name without a date fails the whole list. */
  lemma ExtractDatesRestFails(filenames: seq<string>, extract: string -> Option<Date>)
    requires filenames != []
    requires exists i :: 0 <= i < |filenames[1..]| && extract(filenames[1..][i]).None?
    ensures exists i :: 0 <= i < |filenames| && extract(filenames[i]).None?
  {
    var i :| 0 <= i < |filenames[1..]| && extract(filenames[1..][i]).None?;
    assert filenames[1..][i] == filenames[i + 1];
  }

  /** The date of the first name and the dates of the rest line up with the names. */
  lemma ExtractDatesCons(filenames: seq<string>, extract: string -> Option<Date>, d: Date, ds: seq<Date>)
    requires filenames != [] && extract(filenames[0]) == Some(d)
    requires |ds| == |filenames| - 1
    requires forall i :: 0 <= i < |ds| ==> extract(filenames[1..][i]) == Some(ds[i])
    ensures forall i :: 0 <= i < |filenames| ==> extract(filenames[i]) == Some(([d] + ds)[i])
  {
    forall i | 0 < i < |filenames|
      ensures extract(filenames[i]) == Some(([d] + ds)[i])
    {
      assert filenames[i] == filenames[1..][i - 1];
    }
  }

  /** `ds` followed by the dates of `r`, or the failure of `r`. */
  function PrependDates(ds: seq<Date>, r: Result<seq<Date>, Error>): Result<seq<Date>, Error> {
    if r.Success? then Success(ds + r.value) else r
  }

  /** The loop of `extract_dates_from_filenames`, which appends one date per name. */
  method ExtractDatesFromFilenames(filenames: seq<string>) returns (r: Result<seq<Date>, Error>)
    ensures r == ExtractDates(filenames)
  {
    var dates: seq<Date> := [];
    var k := 0;
    assert filenames[k..] == filenames;
    if ExtractDates(filenames).Success? {
      assert dates + ExtractDates(filenames).value == ExtractDates(filenames).value;
    }
    while k < |filenames|
      invariant 0 <= k <= |filenames|
      invariant ExtractDates(filenames) == PrependDates(dates, ExtractDates(filenames[k..]))
    {
      var d := ExtractDate(filenames[k]);
      ExtractDatesStep(filenames, k);
      if d.None? {
        assert ExtractDates(filenames[k..]) == Failure(ValueError(BadDateMessage));
        return Failure(ValueError(BadDateMessage));
      }
      PrependDatesTwice(dates, [d.value], ExtractDates(filenames[k + 1..]));
      dates := dates + [d.value];
      k := k + 1;
    }
    assert filenames[k..] == [];
    assert ExtractDates(filenames[k..]) == Success([]);
    assert dates + [] == dates;
    r := Success(dates);
  }

  lemma PrependDatesTwice(a: seq<Date>, b: seq<Date>, r: Result<seq<Date>, Error>)
    ensures PrependDates(a, PrependDates(b, r)) == PrependDates(a + b, r)
  {
    if r.Success? {
      assert a + (b + r.value) == a + b + r.value;
    }
  }

  lemma ExtractDatesStep(filenames: seq<string>, k: nat)
    requires k < |filenames|
    ensures ExtractDates(filenames[k..])
            == if ExtractDate(filenames[k]).None? then Failure(ValueError(BadDateMessage))
               else PrependDates([ExtractDate(filenames[k]).value], ExtractDates(filenames[k + 1..]))
  {
    assert filenames[k..][1..] == filenames[k + 1..];
  }

  // ---------------------------------------------------------------------------
  // get_file_basename

  /** `date[:-3]`. */
  function DropLast3(s: string): string {
    if |s| >= 3 then s[..|s| - 3] else []
  }

  /** `get_file_basename`: `{symbol}-{interval or data type}-{date}`, the date cut to `YYYY-MM` for monthly files. */
  function GetFileBasename(symbol: string, marketDataType: string, date: string, timePeriod: string, interval: Option<string>): (r: Result<string, Error>)
    ensures r.Success? <==> (interval.Some? <==> IsKlines(marketDataType))
    ensures r.Success? ==> StartsWith(r.value, symbol + "-")
    ensures r.Success? ==> r.value == symbol + "-" + (if interval.Some? then interval.value else marketDataType) + "-"
                                      + (if timePeriod != "monthly" then date else if |date| >= 3 then date[..|date| - 3] else "")
  {
    if interval.None? == IsKlines(marketDataType) then
      Failure(AssertionError("Interval must be specified for klines data."))
    else
      var d := if timePeriod == "monthly" then DropLast3(date) else date;
      var middle := if interval.Some? then interval.value else marketDataType;
      assert (symbol + "-" + middle + "-" + d)[..|symbol| + 1] == symbol + "-";
      Success(symbol + "-" + middle + "-" + d)
  }

  /** No "20" starts inside `x`, or on the separator that follows it. */
  lemma NoTwentyBeforeSeparator(x: string, rest: string)
    requires !Contains(x, "20")
    requires |rest| > 0 && rest[0] == '-'
    ensures forall j :: 0 <= j <= |x| ==> !IsAt(x + rest, "20", j)
  {
    forall j | 0 <= j <= |x| ensures !IsAt(x + rest, "20", j) {
      if j + 2 <= |x| {
        assert (x + rest)[j..j + 2] == x[j..j + 2];
        assert !IsAt(x, "20", j);
      } else if j + 1 == |x| {
        assert (x + rest)[j + 1] == '-';
      } else {
        assert (x + rest)[j] == '-';
      }
    }
  }

  /** Dropping the extension of `base.ext` gives `base` when neither part has a dot. */
  lemma DropExtensionOfName(base: string, ext: string)
    requires '.' !in base && '.' !in ext
    ensures DropExtension(base + "." + ext) == base
  {
    var name := base + "." + ext;
    assert name[|base|] == '.';
    assert LastIndexOf(name, '.') == |base|;
    assert name[..|base|] == base;
  }

  /** In `symbol-middle-date`, the first "20" is where the date starts. */
  lemma FindYearStart(symbol: string, middle: string, ds: string)
    requires !Contains(symbol, "20") && !Contains(middle, "20")
    requires |ds| >= 2 && ds[0] == '2' && ds[1] == '0'
    ensures Find(symbol + "-" + middle + "-" + ds, "20") == |symbol| + |middle| + 2
  {
    var pre := symbol + "-" + middle + "-";
    var base := pre + ds;
    NoTwentyBeforeSeparator(symbol, "-" + middle + "-" + ds);
    assert base == symbol + ("-" + middle + "-" + ds);
    var k := |symbol| + 1;
    assert base[k..] == middle + ("-" + ds);
    NoTwentyBeforeSeparator(middle, "-" + ds);
    forall j | 0 <= j < |pre| ensures !IsAt(base, "20", j) {
      if j >= k {
        IsAtSuffix(base, "20", k, j - k);
      }
    }
    assert base[|pre|..|pre| + 2] == "20";
    assert IsAt(base, "20", |pre|);
  }

  /** What `ExtractDate` does to `pre + ds + "." + ext` when the first "20" starts `ds`. */
  lemma ExtractDateOfName(pre: string, ds: string, ext: string)
    requires '.' !in pre && '.' !in ds && '.' !in ext
    requires Find(pre + ds, "20") == |pre|
    ensures ExtractDate(pre + ds + "." + ext) == ParseDate(if |ds| == 7 then ds + "-01" else ds)
  {
    var base := pre + ds;
    DropExtensionOfName(base, ext);
    assert base[|pre|..] == ds;
  }

  /** The characters of a formatted date are digits and dashes; years 2000..2099 start with "20". */
  lemma FormatDateShape(d: Date)
    requires Valid(d)
    ensures '.' !in FormatDate(d)
    ensures 2000 <= d.year <= 2099 ==> FormatDate(d)[0] == '2' && FormatDate(d)[1] == '0'
  {
    var s := FormatDate(d);
    forall i | 0 <= i < |s| ensures s[i] != '.' {
    }
  }

  /** The month form `YYYY-MM` of a date, completed with "-01", is its month start. */
  lemma MonthFormCompleted(d: Date)
    requires Valid(d)
    ensures DropLast3(FormatDate(d)) + "-01" == FormatDate(FloorMonth(d))
  {
  }

  /** Extracting the date from a file name built by `get_file_basename` gives back the date
      (its month start for monthly files), provided the symbol and the interval or data type
      contain neither "20" nor a dot and the year is in 2000..2099. */
  lemma {:induction false} BasenameRoundTrip(symbol: string, marketDataType: string, d: Date, timePeriod: string, interval: Option<string>, ext: string)
    requires Valid(d) && 2000 <= d.year <= 2099
    requires interval.Some? <==> IsKlines(marketDataType)
    requires !Contains(symbol, "20") && '.' !in symbol
    requires interval.Some? ==> !Contains(interval.value, "20") && '.' !in interval.value
    requires interval.None? ==> !Contains(marketDataType, "20") && '.' !in marketDataType
    requires '.' !in ext
    ensures GetFileBasename(symbol, marketDataType, FormatDate(d), timePeriod, interval).Success?
    ensures ExtractDate(GetFileBasename(symbol, marketDataType, FormatDate(d), timePeriod, interval).value + "." + ext)
            == Some(if timePeriod == "monthly" then FloorMonth(d) else d)
  {
    var middle := if interval.Some? then interval.value else marketDataType;
    var full := FormatDate(d);
    var ds := if timePeriod == "monthly" then DropLast3(full) else full;
    var pre := symbol + "-" + middle + "-";
    assert GetFileBasename(symbol, marketDataType, full, timePeriod, interval).value == pre + ds;
    FormatDateShape(d);
    assert ds[0] == full[0] && ds[1] == full[1];
    assert '.' !in ds;
    FindYearStart(symbol, middle, ds);
    ExtractDateOfName(pre, ds, ext);
    if timePeriod == "monthly" {
      MonthFormCompleted(d);
      ParseFormat(FloorMonth(d));
    } else {
      ParseFormat(d);
    }
  }
}
