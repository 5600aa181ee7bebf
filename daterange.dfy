/** Calendar range algebra of bdms/utils.py: `check_date_range`, which scans
    adjacent pairs of a date list, and `split_date_range`, which splits
    `[start, end)` into whole months and remaining days. */
module DateRange {
  import opened Wrappers
  import opened Dates
  import opened Filenames

  /** Every element is a value a Python `date` can hold. */
  predicate AllValid(dates: seq<Date>) {
    forall i :: 0 <= i < |dates| ==> Valid(dates[i])
  }

  // ---------------------------------------------------------------------------
  // check_date_range

  /** The messages `check_date_range` returns, naming the later and the earlier date. */
  datatype Violation =
    | NotMonthStart(later: Date, earlier: Date)
    | MoreThan31Days(later: Date, earlier: Date)
    | LessThan28Days(later: Date, earlier: Date)
    | NotNextDay(later: Date, earlier: Date)

  /** `(d2 - d1).days`. */
  function Gap(d1: Date, d2: Date): int
    requires 1 <= d1.month <= 12 && 1 <= d2.month <= 12
  {
    Ordinal(d2) - Ordinal(d1)
  }

  /** The message for the adjacent pair `(d1, d2)`, tested in the order of the code. */
  function PairViolation(d1: Date, d2: Date, monthly: bool): Option<Violation>
    requires WellFormed(d1) && WellFormed(d2)
  {
    if monthly then
      if d2.day != 1 || d1.day != 1 then Some(NotMonthStart(d2, d1))
      else if Gap(d1, d2) > 31 then Some(MoreThan31Days(d2, d1))
      else if Gap(d1, d2) < 28 then Some(LessThan28Days(d2, d1))
      else None
    else if Gap(d1, d2) != 1 then Some(NotNextDay(d2, d1))
    else None
  }

  /** The message for the first offending adjacent pair, or `None`. */
  function FirstViolation(dates: seq<Date>, monthly: bool): Option<Violation>
    requires AllValid(dates)
  {
    if |dates| < 2 then None
    else if PairViolation(dates[0], dates[1], monthly).Some? then PairViolation(dates[0], dates[1], monthly)
    else FirstViolation(dates[1..], monthly)
  }

  /** `check_date_range(dates, mode)`: an `AssertionError` for an unknown mode, else the
      message for the first offending pair. It returns the message and raises nothing. */
  method CheckDateRange(dates: seq<Date>, mode: string) returns (r: Result<Option<Violation>, Error>)
    requires AllValid(dates)
    ensures r.Failure? <==> mode != "daily" && mode != "monthly"
    ensures r.Failure? ==> r.error.AssertionError?
    ensures r.Success? ==> r.value == FirstViolation(dates, mode == "monthly")
  {
    if mode != "daily" && mode != "monthly" {
      return Failure(AssertionError("Invalid mode. Choose from daily, monthly."));
    }
    var monthly := mode == "monthly";
    var i := 0;
    while i + 1 < |dates|
      invariant 0 <= i <= |dates|
      invariant AllValid(dates[i..])
      invariant FirstViolation(dates[i..], monthly) == FirstViolation(dates, monthly)
    {
      var v := PairViolation(dates[i], dates[i + 1], monthly);
      assert dates[i..][0] == dates[i] && dates[i..][1] == dates[i + 1];
      assert dates[i..][1..] == dates[i + 1..];
      if v.Some? {
        return Success(v);
      }
      i := i + 1;
    }
    return Success(None);
  }

  /** No message at all means no offending pair anywhere. */
  lemma {:induction false} FirstViolationNone(dates: seq<Date>, monthly: bool)
    requires AllValid(dates)
    ensures FirstViolation(dates, monthly).None?
            <==> forall i :: 0 <= i < |dates| - 1 ==> PairViolation(dates[i], dates[i + 1], monthly).None?
    decreases |dates|
  {
    if |dates| >= 2 {
      var rest := dates[1..];
      assert AllValid(rest);
      FirstViolationNone(rest, monthly);
      assert forall i :: 0 <= i < |rest| ==> rest[i] == dates[i + 1];
    }
  }

  /** No pair before index `i` offends. */
  predicate PassesBefore(dates: seq<Date>, monthly: bool, i: int)
    requires AllValid(dates) && i <= |dates| - 1
  {
    forall j :: 0 <= j < i ==> PairViolation(dates[j], dates[j + 1], monthly).None?
  }

  /** A message names the first offending pair: every earlier pair passes. */
  lemma {:induction false} FirstViolationIsFirst(dates: seq<Date>, monthly: bool)
    requires AllValid(dates)
    requires FirstViolation(dates, monthly).Some?
    ensures exists i :: 0 <= i < |dates| - 1
              && PairViolation(dates[i], dates[i + 1], monthly) == FirstViolation(dates, monthly)
              && PassesBefore(dates, monthly, i)
    decreases |dates|
  {
    if PairViolation(dates[0], dates[1], monthly).Some? {
      assert PairViolation(dates[0], dates[1], monthly) == FirstViolation(dates, monthly);
      assert PassesBefore(dates, monthly, 0);
    } else {
      var rest := dates[1..];
      assert AllValid(rest);
      FirstViolationIsFirst(rest, monthly);
      var i :| 0 <= i < |rest| - 1
              && PairViolation(rest[i], rest[i + 1], monthly) == FirstViolation(rest, monthly)
              && PassesBefore(rest, monthly, i);
      forall j | 0 <= j < i + 1 ensures PairViolation(dates[j], dates[j + 1], monthly).None? {
        if j > 0 {
          assert rest[j - 1] == dates[j] && rest[j] == dates[j + 1];
        }
      }
      assert rest[i] == dates[i + 1] && rest[i + 1] == dates[i + 2];
      assert PassesBefore(dates, monthly, i + 1);
    }
  }

  /** Monthly mode accepts a pair exactly when it is a month start followed by the next month start. */
  lemma MonthlyPairAccepted(d1: Date, d2: Date)
    requires WellFormed(d1) && WellFormed(d2)
    ensures PairViolation(d1, d2, true).None? <==> d1.day == 1 && d2 == NextMonthStart(d1)
  {
    if d1.day == 1 && d2.day == 1 && 28 <= Gap(d1, d2) <= 31 {
      MonthGapIsNextMonth(d1, d2);
    }
    if d1.day == 1 && d2 == NextMonthStart(d1) {
      NextMonthGap(d1);
    }
  }

  /** Daily mode accepts a pair exactly when the second date is the day after the first. */
  lemma DailyPairAccepted(d1: Date, d2: Date)
    requires WellFormed(d1) && WellFormed(d2)
    ensures PairViolation(d1, d2, false).None? <==> d2 == NextDay(d1)
  {
    NextDayOrdinal(d1);
    if Gap(d1, d2) == 1 {
      DayGapIsNextDay(d1, d2);
    }
  }

  /** A monthly list passes the check exactly when it is a run of consecutive month starts. */
  lemma MonthlyAcceptedIffConsecutive(dates: seq<Date>)
    requires AllValid(dates)
    ensures FirstViolation(dates, true).None?
            <==> forall i :: 0 <= i < |dates| - 1 ==> dates[i].day == 1 && dates[i + 1] == NextMonthStart(dates[i])
  {
    FirstViolationNone(dates, true);
    forall i | 0 <= i < |dates| - 1
      ensures PairViolation(dates[i], dates[i + 1], true).None?
              <==> dates[i].day == 1 && dates[i + 1] == NextMonthStart(dates[i])
    {
      MonthlyPairAccepted(dates[i], dates[i + 1]);
    }
  }

  /** A daily list passes the check exactly when every date is followed by the next day. */
  lemma DailyAcceptedIffConsecutive(dates: seq<Date>)
    requires AllValid(dates)
    ensures FirstViolation(dates, false).None?
            <==> forall i :: 0 <= i < |dates| - 1 ==> dates[i + 1] == NextDay(dates[i])
  {
    FirstViolationNone(dates, false);
    forall i | 0 <= i < |dates| - 1
      ensures PairViolation(dates[i], dates[i + 1], false).None? <==> dates[i + 1] == NextDay(dates[i])
    {
      DailyPairAccepted(dates[i], dates[i + 1]);
    }
  }

  // ---------------------------------------------------------------------------
  // Runs of months and of days

  /** `ms` lists the month starts from `from` up to, not including, `to`. */
  predicate MonthRun(ms: seq<Date>, from: Date, to: Date) {
    from.day == 1
    && (|ms| == 0 ==> from == to)
    && (|ms| > 0 ==> ms[0] == from && NextMonthStart(ms[|ms| - 1]) == to)
    && forall i :: 0 <= i < |ms| - 1 ==> ms[i + 1] == NextMonthStart(ms[i])
  }

  /** `ds` lists the days from `from` up to, not including, `to`. */
  predicate DayRun(ds: seq<Date>, from: Date, to: Date) {
    (|ds| == 0 ==> from == to)
    && (|ds| > 0 ==> ds[0] == from && NextDay(ds[|ds| - 1]) == to)
    && forall i :: 0 <= i < |ds| - 1 ==> ds[i + 1] == NextDay(ds[i])
  }

  lemma MonthRunPrefix(ms: seq<Date>, from: Date, to: Date)
    requires MonthRun(ms, from, to) && |ms| > 0
    ensures MonthRun(ms[..|ms| - 1], from, ms[|ms| - 1])
  {
  }

  lemma DayRunPrefix(ds: seq<Date>, from: Date, to: Date)
    requires DayRun(ds, from, to) && |ds| > 0
    ensures DayRun(ds[..|ds| - 1], from, ds[|ds| - 1])
  {
  }

  /** The k-th element of a month run is the k-th month after its start. */
  lemma {:induction false} MonthRunClosedForm(ms: seq<Date>, from: Date, to: Date)
    requires 1 <= from.month <= 12 && MonthRun(ms, from, to)
    ensures forall i :: 0 <= i < |ms| ==> ms[i] == MonthAt(MonthIndex(from) + i)
    ensures to == MonthAt(MonthIndex(from) + |ms|)
    decreases |ms|
  {
    if |ms| == 0 {
      MonthAtIndex(from);
    } else {
      var n := |ms| - 1;
      MonthRunPrefix(ms, from, to);
      MonthRunClosedForm(ms[..n], from, ms[n]);
      assert forall i :: 0 <= i < n ==> ms[..n][i] == ms[i];
      NextMonthStartAt(MonthIndex(from) + n);
    }
  }

  /** The k-th element of a day run is `k` days after its start. */
  lemma {:induction false} DayRunClosedForm(ds: seq<Date>, from: Date, to: Date)
    requires DayRun(ds, from, to)
    ensures forall i :: 0 <= i < |ds| ==> ds[i] == AddDays(from, i)
    ensures to == AddDays(from, |ds|)
    decreases |ds|
  {
    if |ds| > 0 {
      var n := |ds| - 1;
      DayRunPrefix(ds, from, to);
      DayRunClosedForm(ds[..n], from, ds[n]);
      assert forall i :: 0 <= i < n ==> ds[..n][i] == ds[i];
      AddDaysSplit(from, n, 1);
    }
  }

  /** A month run from a month start covers exactly the months with index in `[from, to)`. */
  lemma MonthRunMembership(ms: seq<Date>, from: Date, to: Date, x: Date)
    requires 1 <= from.month <= 12 && MonthRun(ms, from, to) && WellFormed(x)
    ensures |ms| == MonthIndex(to) - MonthIndex(from)
    ensures FloorMonth(x) in ms <==> MonthIndex(from) <= MonthIndex(x) < MonthIndex(to)
  {
    MonthRunClosedForm(ms, from, to);
    IndexOfMonthAt(MonthIndex(from) + |ms|);
    if FloorMonth(x) in ms {
      var i :| 0 <= i < |ms| && ms[i] == FloorMonth(x);
      IndexOfMonthAt(MonthIndex(from) + i);
    }
    if MonthIndex(from) <= MonthIndex(x) < MonthIndex(to) {
      var i := MonthIndex(x) - MonthIndex(from);
      MonthAtIndex(x);
      assert ms[i] == FloorMonth(x);
    }
  }

  /** A day run from a date covers exactly the dates in `[from, to)`, one ordinal each. */
  lemma DayRunMembership(ds: seq<Date>, from: Date, to: Date, x: Date)
    requires WellFormed(from) && DayRun(ds, from, to) && WellFormed(x)
    ensures WellFormed(to) && |ds| == Ordinal(to) - Ordinal(from)
    ensures x in ds <==> LessEq(from, x) && Less(x, to)
  {
    DayRunClosedForm(ds, from, to);
    AddDaysOrdinal(from, |ds|);
    LessIsOrdinalLess(from, x);
    LessIsOrdinalLess(x, to);
    if x in ds {
      var i :| 0 <= i < |ds| && ds[i] == x;
      AddDaysOrdinal(from, i);
    }
    if LessEq(from, x) && Less(x, to) {
      var i := Ordinal(x) - Ordinal(from);
      AddDaysOrdinal(from, i);
      OrdinalInjective(x, AddDays(from, i));
      assert ds[i] == x;
    }
  }

  // ---------------------------------------------------------------------------
  // split_date_range

  /** Where the daily part begins: the end's month start after whole months, else the start. */
  function DailyStart(start: Date, end: Date, ms: seq<Date>): Date {
    if |ms| > 0 then FloorMonth(end) else start
  }

  /** What `split_date_range(start, end)` returns: the whole months from start's month up to
      end's month, then the days up to, not including, `end`. */
  predicate SplitOutcome(start: Date, end: Date, ms: seq<Date>, ds: seq<Date>) {
    (|ms| > 0 <==> Less(FloorMonth(start), FloorMonth(end)))
    && MonthRun(ms, FloorMonth(start), if |ms| > 0 then FloorMonth(end) else FloorMonth(start))
    && DayRun(ds, DailyStart(start, end, ms), end)
  }

  /** The two lists `split_date_range` returns. */
  datatype Split = Split(monthly: seq<Date>, daily: seq<Date>)

  /** The month starts from `current` up to, not including, `stop`, stepping as the first loop
      of `split_date_range` does. */
  function MonthsFrom(current: Date, stop: Date): seq<Date>
    requires WellFormed(current) && current.day == 1 && WellFormed(stop) && stop.day == 1 && LessEq(current, stop)
    decreases Ordinal(stop) - Ordinal(current)
  {
    if Less(current, stop) then
      LessIsOrdinalLess(current, stop);
      MonthStepIsNextMonthStart(current);
      NextMonthStartOrdinal(current);
      NextMonthStartIsImmediate(current, stop);
      [current] + MonthsFrom(MonthStep(current), stop)
    else []
  }

  /** The days from `current` up to, not including, `end`. */
  function DaysFrom(current: Date, end: Date): seq<Date>
    requires WellFormed(current) && WellFormed(end) && LessEq(current, end)
    decreases Ordinal(end) - Ordinal(current)
  {
    if Less(current, end) then
      LessIsOrdinalLess(current, end);
      NextDayOrdinal(current);
      NextDayIsImmediate(current, end);
      [current] + DaysFrom(NextDay(current), end)
    else []
  }

  /** The two lists of `split_date_range` for parsed dates with `start <= end`. */
  function SplitDates(start: Date, end: Date): Split
    requires Valid(start) && Valid(end) && LessEq(start, end)
  {
    var ms := MonthsFrom(FloorMonth(start), FloorMonth(end));
    Split(ms, DaysFrom(DailyStart(start, end, ms), end))
  }

  /** `split_date_range(start, end)` on the date strings: the split, or the `ValueError` of an
      unparsable date or of `end < start`. */
  function SplitRange(startText: string, endText: string): (r: Result<Split, Error>)
    ensures r.Failure? <==> ParseDate(startText).None? || ParseDate(endText).None?
                            || Less(ParseDate(endText).value, ParseDate(startText).value)
    ensures r.Failure? ==> r.error.ValueError?
    ensures r.Success? ==> SplitOutcome(ParseDate(startText).value, ParseDate(endText).value, r.value.monthly, r.value.daily)
    ensures r.Success? ==> AllValid(r.value.monthly) && AllValid(r.value.daily)
  {
    var s := ParseDate(startText);
    var e := ParseDate(endText);
    if s.None? || e.None? then Failure(ValueError("time data does not match format '%Y-%m-%d'"))
    else if Less(e.value, s.value) then Failure(ValueError("start_date must be earlier than or equal to end_date"))
    else
      SplitDatesOutcome(s.value, e.value);
      SplitDatesValid(s.value, e.value);
      Success(SplitDates(s.value, e.value))
  }

  /** The first loop of `split_date_range`: the month starts from the start's month up to,
      not including, the end's month. */
  method WholeMonths(start: Date, end: Date) returns (monthly: seq<Date>)
    requires Valid(start) && Valid(end) && LessEq(start, end)
    ensures |monthly| > 0 <==> Less(FloorMonth(start), FloorMonth(end))
    ensures MonthRun(monthly, FloorMonth(start), if |monthly| > 0 then FloorMonth(end) else FloorMonth(start))
    ensures AllValid(monthly)
  {
    monthly := [];
    var stop := FloorMonth(end);
    var current := FloorMonth(start);
    while Less(current, stop)
      invariant WellFormed(current) && current.day == 1 && LessEq(current, stop)
      invariant MonthRun(monthly, FloorMonth(start), current)
      invariant |monthly| > 0 ==> Less(FloorMonth(start), stop)
      invariant AllValid(monthly)
      decreases Ordinal(stop) - Ordinal(current)
    {
      LessIsOrdinalLess(current, stop);
      MonthStepIsNextMonthStart(current);
      NextMonthStartOrdinal(current);
      NextMonthStartIsImmediate(current, stop);
      monthly := monthly + [current];
      current := MonthStep(current);
    }
  }

  /** The second loop of `split_date_range`: the days from `first` up to, not including, `end`. */
  method RemainingDays(first: Date, end: Date) returns (daily: seq<Date>)
    requires WellFormed(first) && Valid(end) && LessEq(first, end)
    ensures DayRun(daily, first, end)
    ensures AllValid(daily)
  {
    daily := [];
    var current := first;
    while Less(current, end)
      invariant WellFormed(current) && LessEq(current, end)
      invariant DayRun(daily, first, current)
      invariant AllValid(daily)
      decreases Ordinal(end) - Ordinal(current)
    {
      LessIsOrdinalLess(current, end);
      NextDayOrdinal(current);
      NextDayIsImmediate(current, end);
      daily := daily + [current];
      current := NextDay(current);
    }
  }

  /** The function form of the first loop yields a month run that reaches `stop`. */
  lemma {:induction false} MonthsFromRun(current: Date, stop: Date)
    requires WellFormed(current) && current.day == 1 && WellFormed(stop) && stop.day == 1 && LessEq(current, stop)
    ensures |MonthsFrom(current, stop)| > 0 <==> Less(current, stop)
    ensures MonthRun(MonthsFrom(current, stop), current, stop)
    decreases Ordinal(stop) - Ordinal(current)
  {
    if Less(current, stop) {
      LessIsOrdinalLess(current, stop);
      MonthStepIsNextMonthStart(current);
      NextMonthStartOrdinal(current);
      NextMonthStartIsImmediate(current, stop);
      var next := MonthStep(current);
      MonthsFromRun(next, stop);
      var rest := MonthsFrom(next, stop);
      var ms := MonthsFrom(current, stop);
      assert ms == [current] + rest;
      assert forall i :: 1 <= i < |ms| ==> ms[i] == rest[i - 1];
    }
  }

  /** The function form of the second loop yields a day run that reaches `end`. */
  lemma {:induction false} DaysFromRun(current: Date, end: Date)
    requires WellFormed(current) && WellFormed(end) && LessEq(current, end)
    ensures DayRun(DaysFrom(current, end), current, end)
    decreases Ordinal(end) - Ordinal(current)
  {
    if Less(current, end) {
      LessIsOrdinalLess(current, end);
      NextDayOrdinal(current);
      NextDayIsImmediate(current, end);
      var next := NextDay(current);
      DaysFromRun(next, end);
      var rest := DaysFrom(next, end);
      var ds := DaysFrom(current, end);
      assert ds == [current] + rest;
      assert forall i :: 1 <= i < |ds| ==> ds[i] == rest[i - 1];
    }
  }

  /** Every month start up to a valid `stop` is valid. */
  lemma {:induction false} MonthsFromValid(current: Date, stop: Date)
    requires WellFormed(current) && current.day == 1 && Valid(stop) && stop.day == 1 && LessEq(current, stop)
    ensures AllValid(MonthsFrom(current, stop))
    decreases Ordinal(stop) - Ordinal(current)
  {
    if Less(current, stop) {
      LessIsOrdinalLess(current, stop);
      MonthStepIsNextMonthStart(current);
      NextMonthStartOrdinal(current);
      NextMonthStartIsImmediate(current, stop);
      MonthsFromValid(MonthStep(current), stop);
    }
  }

  /** Every day up to a valid `end` is valid. */
  lemma {:induction false} DaysFromValid(current: Date, end: Date)
    requires WellFormed(current) && Valid(end) && LessEq(current, end)
    ensures AllValid(DaysFrom(current, end))
    decreases Ordinal(end) - Ordinal(current)
  {
    if Less(current, end) {
      LessIsOrdinalLess(current, end);
      NextDayOrdinal(current);
      NextDayIsImmediate(current, end);
      DaysFromValid(NextDay(current), end);
    }
  }

  /** The dates of a split are valid, so they can be formatted. */
  lemma SplitDatesValid(start: Date, end: Date)
    requires Valid(start) && Valid(end) && LessEq(start, end)
    ensures AllValid(SplitDates(start, end).monthly) && AllValid(SplitDates(start, end).daily)
  {
    var ms := MonthsFrom(FloorMonth(start), FloorMonth(end));
    MonthsFromValid(FloorMonth(start), FloorMonth(end));
    DaysFromValid(DailyStart(start, end, ms), end);
  }

  /** `SplitDates` is the split `split_date_range` describes. */
  lemma SplitDatesOutcome(start: Date, end: Date)
    requires Valid(start) && Valid(end) && LessEq(start, end)
    ensures SplitOutcome(start, end, SplitDates(start, end).monthly, SplitDates(start, end).daily)
  {
    var ms := MonthsFrom(FloorMonth(start), FloorMonth(end));
    MonthsFromRun(FloorMonth(start), FloorMonth(end));
    DaysFromRun(DailyStart(start, end, ms), end);
  }

  method SplitDateRange(startText: string, endText: string) returns (r: Result<Split, Error>)
    ensures r.Failure? <==> ParseDate(startText).None? || ParseDate(endText).None?
                            || Less(ParseDate(endText).value, ParseDate(startText).value)
    ensures r.Failure? ==> r.error.ValueError?
    ensures r.Success? ==> SplitOutcome(ParseDate(startText).value, ParseDate(endText).value, r.value.monthly, r.value.daily)
    ensures r.Success? ==> AllValid(r.value.monthly) && AllValid(r.value.daily)
    ensures r == SplitRange(startText, endText)
  {
    var parsedStart := ParseDate(startText);
    if parsedStart.None? {
      return Failure(ValueError("time data does not match format '%Y-%m-%d'"));
    }
    var parsedEnd := ParseDate(endText);
    if parsedEnd.None? {
      return Failure(ValueError("time data does not match format '%Y-%m-%d'"));
    }
    var start, end := parsedStart.value, parsedEnd.value;
    if Less(end, start) {
      return Failure(ValueError("start_date must be earlier than or equal to end_date"));
    }
    var monthly := WholeMonths(start, end);
    var daily := RemainingDays(DailyStart(start, end, monthly), end);
    // The two checks' messages are discarded; both are None (SplitPassesChecks).
    var monthlyCheck := CheckDateRange(monthly, "monthly");
    var dailyCheck := CheckDateRange(daily, "daily");
    SplitDatesOutcome(start, end);
    SplitOutcomeUnique(start, end, monthly, daily, SplitDates(start, end).monthly, SplitDates(start, end).daily);
    r := Success(Split(monthly, daily));
  }

  // ---------------------------------------------------------------------------
  // Properties of the split

  /** The shape of the two lists. */
  lemma SplitShape(start: Date, end: Date, ms: seq<Date>, ds: seq<Date>)
    requires Valid(start) && Valid(end) && LessEq(start, end)
    requires SplitOutcome(start, end, ms, ds)
    ensures |ms| > 0 ==> ms[0] == FloorMonth(start)
    ensures forall i :: 0 <= i < |ms| ==> ms[i].day == 1 && Less(ms[i], FloorMonth(end))
    ensures forall i :: 0 <= i < |ms| - 1 ==> ms[i + 1] == NextMonthStart(ms[i])
    ensures |ds| > 0 ==> ds[0] == (if |ms| > 0 then FloorMonth(end) else start)
    ensures |ds| > 0 ==> NextDay(ds[|ds| - 1]) == end
    ensures forall i :: 0 <= i < |ds| - 1 ==> ds[i + 1] == NextDay(ds[i])
    ensures forall i :: 0 <= i < |ds| ==> Less(ds[i], end)
    ensures start == end ==> ms == [] && ds == []
  {
    var f := FloorMonth(start);
    var t := if |ms| > 0 then FloorMonth(end) else f;
    MonthRunClosedForm(ms, f, t);
    IndexOfMonthAt(MonthIndex(f) + |ms|);
    forall i | 0 <= i < |ms| ensures ms[i].day == 1 && Less(ms[i], FloorMonth(end)) {
      IndexOfMonthAt(MonthIndex(f) + i);
      MonthStartOrder(FloorMonth(end), ms[i]);
    }
    var first := DailyStart(start, end, ms);
    DayRunClosedForm(ds, first, end);
    forall i | 0 <= i < |ds| ensures Less(ds[i], end) {
      AddDaysOrdinal(first, i);
      DayRunMembership(ds, first, end, ds[i]);
    }
  }

  /** Every date of `[S, end)` is covered exactly once, by the month of a monthly date or by a
      daily date, where S is the start's month start after whole months and the start otherwise.
      No date outside that range is covered. */
  lemma SplitTiling(start: Date, end: Date, ms: seq<Date>, ds: seq<Date>, x: Date)
    requires Valid(start) && Valid(end) && LessEq(start, end) && WellFormed(x)
    requires SplitOutcome(start, end, ms, ds)
    ensures (FloorMonth(x) in ms || x in ds)
            <==> LessEq(if |ms| > 0 then FloorMonth(start) else start, x) && Less(x, end)
    ensures !(FloorMonth(x) in ms && x in ds)
  {
    var f := FloorMonth(start);
    var first := DailyStart(start, end, ms);
    DayRunMembership(ds, first, end, x);
    if |ms| > 0 {
      MonthRunMembership(ms, f, FloorMonth(end), x);
      MonthStartOrder(f, x);
      MonthStartOrder(FloorMonth(end), x);
    }
  }

  /** Both lists pass `check_date_range` in their modes (the checks at the end of the split). */
  lemma SplitPassesChecks(start: Date, end: Date, ms: seq<Date>, ds: seq<Date>)
    requires Valid(start) && Valid(end) && LessEq(start, end)
    requires SplitOutcome(start, end, ms, ds)
    requires AllValid(ms) && AllValid(ds)
    ensures FirstViolation(ms, true).None?
    ensures FirstViolation(ds, false).None?
  {
    SplitShape(start, end, ms, ds);
    MonthlyAcceptedIffConsecutive(ms);
    DailyAcceptedIffConsecutive(ds);
  }

  /** The outcome is determined by the two dates. */
  lemma SplitOutcomeUnique(start: Date, end: Date, ms1: seq<Date>, ds1: seq<Date>, ms2: seq<Date>, ds2: seq<Date>)
    requires Valid(start) && Valid(end)
    requires SplitOutcome(start, end, ms1, ds1) && SplitOutcome(start, end, ms2, ds2)
    ensures ms1 == ms2 && ds1 == ds2
  {
    var f := FloorMonth(start);
    var t := if Less(f, FloorMonth(end)) then FloorMonth(end) else f;
    MonthRunMembership(ms1, f, t, start);
    MonthRunMembership(ms2, f, t, start);
    MonthRunClosedForm(ms1, f, t);
    MonthRunClosedForm(ms2, f, t);
    assert ms1 == ms2;
    var first := DailyStart(start, end, ms1);
    DayRunMembership(ds1, first, end, start);
    DayRunMembership(ds2, first, end, start);
    DayRunClosedForm(ds1, first, end);
    DayRunClosedForm(ds2, first, end);
    assert ds1 == ds2;
  }

  /** ("2024-01-01", "2024-02-01") gives ([2024-01-01], []). */
  lemma SplitWholeMonthExample(ms: seq<Date>, ds: seq<Date>)
    requires SplitOutcome(Date(2024, 1, 1), Date(2024, 2, 1), ms, ds)
    ensures ms == [Date(2024, 1, 1)] && ds == []
  {
    var f := Date(2024, 1, 1);
    MonthRunMembership(ms, f, Date(2024, 2, 1), f);
    MonthRunClosedForm(ms, f, Date(2024, 2, 1));
    DayRunMembership(ds, Date(2024, 2, 1), Date(2024, 2, 1), f);
  }

  /** ("2024-01-01", "2024-01-02") gives ([], [2024-01-01]). */
  lemma SplitOneDayExample(ms: seq<Date>, ds: seq<Date>)
    requires SplitOutcome(Date(2024, 1, 1), Date(2024, 1, 2), ms, ds)
    ensures ms == [] && ds == [Date(2024, 1, 1)]
  {
    var s := Date(2024, 1, 1);
    DayRunMembership(ds, s, Date(2024, 1, 2), s);
    DayRunClosedForm(ds, s, Date(2024, 1, 2));
  }

  lemma DayOfMonth(d: Date, n: int)
    requires 0 <= n && d.day + n <= DaysInMonth(d.year, d.month)
    ensures AddDays(d, n) == Date(d.year, d.month, d.day + n)
  {
    AddDaysWithinMonth(d, n);
  }

  /** ("2021-01-13", "2021-03-25") gives ([2021-01-01, 2021-02-01], [2021-03-01 .. 2021-03-24]). */
  lemma SplitPartialMonthsExample(ms: seq<Date>, ds: seq<Date>)
    requires SplitOutcome(Date(2021, 1, 13), Date(2021, 3, 25), ms, ds)
    ensures ms == [Date(2021, 1, 1), Date(2021, 2, 1)]
    ensures |ds| == 24
    ensures forall i :: 0 <= i < |ds| ==> ds[i].year == 2021 && ds[i].month == 3 && ds[i].day == i + 1
  {
    var f := Date(2021, 1, 1);
    var t := Date(2021, 3, 1);
    MonthRunMembership(ms, f, t, f);
    MonthRunClosedForm(ms, f, t);
    assert MonthAt(MonthIndex(f) + 1) == Date(2021, 2, 1);
    DayRunMembership(ds, t, Date(2021, 3, 25), t);
    DayRunClosedForm(ds, t, Date(2021, 3, 25));
    forall i | 0 <= i < |ds| ensures ds[i].year == 2021 && ds[i].month == 3 && ds[i].day == i + 1 {
      DayOfMonth(t, i);
    }
  }
}
