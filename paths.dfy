/** Directory paths of the archive: `get_base_path` (bdms/utils.py) and the
    merged output path that `merge_database` derives from the monthly base
    path with three `str.replace` calls (bdms/merge.py). */
module Paths {
  import opened Wrappers
  import opened Text
  import opened Enums

  // ---------------------------------------------------------------------------
  // Paths as lists of segments

  /** A non-empty path segment without a slash. */
  predicate Segment(x: string) {
    |x| > 0 && '/' !in x
  }

  /** `s1/s2/.../sn/`: every segment followed by a slash. */
  function JoinSegments(segs: seq<string>): string {
    if segs == [] then [] else segs[0] + "/" + JoinSegments(segs[1..])
  }

  lemma {:induction false} JoinSegmentsAppend(a: seq<string>, b: seq<string>)
    ensures JoinSegments(a + b) == JoinSegments(a) + JoinSegments(b)
    decreases |a|
  {
    if a != [] {
      assert (a + b)[0] == a[0];
      assert (a + b)[1..] == a[1..] + b;
      JoinSegmentsAppend(a[1..], b);
      calc {
        JoinSegments(a + b);
        (a + b)[0] + "/" + JoinSegments((a + b)[1..]);
        a[0] + "/" + (JoinSegments(a[1..]) + JoinSegments(b));
        (a[0] + "/" + JoinSegments(a[1..])) + JoinSegments(b);
      }
    } else {
      assert a + b == b;
    }
  }

  lemma JoinOne(x: string)
    ensures JoinSegments([x]) == x + "/"
  {
    assert [x][1..] == [];
  }

  lemma JoinTwo(x: string, y: string)
    ensures JoinSegments([x, y]) == x + "/" + y + "/"
  {
    assert [x, y] == [x] + [y];
    JoinSegmentsAppend([x], [y]);
    JoinOne(x);
    JoinOne(y);
  }

  lemma JoinThree(x: string, y: string, z: string)
    ensures JoinSegments([x, y, z]) == x + "/" + y + "/" + z + "/"
  {
    assert [x, y, z] == [x] + [y, z];
    JoinSegmentsAppend([x], [y, z]);
    JoinOne(x);
    JoinTwo(y, z);
  }

  /** The segment list with every segment equal to `w` replaced by the segments `segsBy`. */
  function Substitute(segs: seq<string>, w: string, segsBy: seq<string>): seq<string> {
    if segs == [] then [] else (if segs[0] == w then segsBy else [segs[0]]) + Substitute(segs[1..], w, segsBy)
  }

  /** An occurrence of `w/` cannot run across the slash that ends a segment. */
  lemma NoStraddle(x: string, b: string, w: string)
    requires Segment(x) && '/' !in w
    ensures forall j :: 0 <= j < |x + "/"| && |x + "/"| < j + |w + "/"| ==> !IsAt(x + "/" + b, w + "/", j)
  {
    var s := x + "/" + b;
    var p := w + "/";
    forall j | 0 <= j < |x + "/"| && |x + "/"| < j + |p|
      ensures !IsAt(s, p, j)
    {
      if j + |p| <= |s| {
        var k := |x| - j;
        assert s[j..j + |p|][k] == s[|x|] == '/';
        assert p[k] == w[k] != '/';
      }
    }
  }

  /** `w/` sits at the end of `x/` exactly when `x` ends with `w`. */
  lemma AtEndIff(x: string, w: string)
    requires |w| <= |x|
    ensures IsAt(x + "/", w + "/", |x| - |w|) <==> EndsWith(x, w)
  {
    var j := |x| - |w|;
    var s := x + "/";
    assert s[j..j + |w| + 1] == x[j..] + "/";
    if x[j..] + "/" == w + "/" {
      assert x[j..] == (x[j..] + "/")[..|w|] == (w + "/")[..|w|];
    }
  }

  /** On one segment, `replace("w/", r)` acts exactly when the segment is `w`. */
  lemma SegmentReplace(x: string, w: string, r: string)
    requires Segment(x) && Segment(w)
    requires EndsWith(x, w) ==> x == w
    ensures Replace(x + "/", w + "/", r) == if x == w then r else x + "/"
  {
    if x == w {
      ReplaceWhole(w + "/", r);
    } else {
      var s := x + "/";
      var p := w + "/";
      forall j | 0 <= j <= |s| ensures !IsAt(s, p, j) {
        if j + |p| <= |s| {
          if j + |w| < |x| {
            assert s[j..j + |p|][|w|] == x[j + |w|] != '/' == p[|w|];
          } else {
            assert j == |x| - |w|;
            AtEndIff(x, w);
          }
        }
      }
      ReplaceAbsent(s, p, r);
    }
  }

  /** `replace("w/", by/...)` on a segment path substitutes whole segments equal to `w`,
      provided no other segment ends with `w`. */
  lemma {:induction false} ReplaceSegments(segs: seq<string>, w: string, segsBy: seq<string>)
    requires Segment(w)
    requires forall i :: 0 <= i < |segs| ==> Segment(segs[i]) && (EndsWith(segs[i], w) ==> segs[i] == w)
    ensures Replace(JoinSegments(segs), w + "/", JoinSegments(segsBy)) == JoinSegments(Substitute(segs, w, segsBy))
    decreases |segs|
  {
    if segs != [] {
      var x := segs[0];
      var rest := JoinSegments(segs[1..]);
      var r := JoinSegments(segsBy);
      NoStraddle(x, rest, w);
      ReplaceAppend(x + "/", rest, w + "/", r);
      SegmentReplace(x, w, r);
      ReplaceSegments(segs[1..], w, segsBy);
      var head := if x == w then segsBy else [x];
      JoinSegmentsAppend(head, Substitute(segs[1..], w, segsBy));
      assert JoinSegments([x]) == x + "/";
    }
  }

  // ---------------------------------------------------------------------------
  // get_base_path

  /** The segments for the trading type: `data/spot` or `data/futures/{um|cm}`. */
  function TradingTypeSegments(tradingType: string): seq<string> {
    if tradingType == "um" || tradingType == "cm" then ["data", "futures", tradingType] else ["data", "spot"]
  }

  function IntervalSegments(interval: Option<string>): seq<string> {
    if interval.Some? then [interval.value] else []
  }

  /** The segments of a base path. */
  function BasePathSegments(tradingType: string, marketDataType: string, timePeriod: string, symbol: string, interval: Option<string>): seq<string> {
    TradingTypeSegments(tradingType) + [timePeriod, marketDataType, Upper(symbol)] + IntervalSegments(interval)
  }

  /** The assertions of `get_base_path`. */
  predicate BasePathArgsOk(tradingType: string, marketDataType: string, timePeriod: string, interval: Option<string>) {
    timePeriod in TimePeriods
    && tradingType in TradingTypes
    && (if tradingType != "spot" then marketDataType in FuturesDataTypes + MarketDataTypes
        else marketDataType in MarketDataTypes)
    && (if IsKlines(marketDataType) then interval.Some? && interval.value in Intervals else interval.None?)
  }

  /** The messages of the assertions of `get_base_path`. */
  predicate BasePathMessage(m: string) {
    m in ["", "Interval must be specified for klines.", "Invalid interval. Choose from enum.INTERVALS.",
          "Interval must be None for non-klines data."]
  }

  /** `get_base_path`: `{data/spot | data/futures/tt}/{period}/{type}/{SYMBOL}/[{interval}/]`,
      or the `AssertionError` of the first assertion that fails. */
  function GetBasePath(tradingType: string, marketDataType: string, timePeriod: string, symbol: string, interval: Option<string>): (r: Result<string, Error>)
    ensures r.Success? <==> BasePathArgsOk(tradingType, marketDataType, timePeriod, interval)
    ensures r.Failure? ==> r.error.AssertionError? && BasePathMessage(r.error.message)
    ensures r.Success? ==> r.value == JoinSegments(BasePathSegments(tradingType, marketDataType, timePeriod, symbol, interval))
  {
    if timePeriod !in TimePeriods then Failure(AssertionError(""))
    else if tradingType !in TradingTypes then Failure(AssertionError(""))
    else if tradingType != "spot" && marketDataType !in FuturesDataTypes + MarketDataTypes then Failure(AssertionError(""))
    else if tradingType == "spot" && marketDataType !in MarketDataTypes then Failure(AssertionError(""))
    else if IsKlines(marketDataType) && interval.None? then Failure(AssertionError("Interval must be specified for klines."))
    else if IsKlines(marketDataType) && interval.value !in Intervals then Failure(AssertionError("Invalid interval. Choose from enum.INTERVALS."))
    else if !IsKlines(marketDataType) && interval.Some? then Failure(AssertionError("Interval must be None for non-klines data."))
    else
      var tradingTypePath := if tradingType == "um" || tradingType == "cm" then "data/futures/" + tradingType else "data/spot";
      var path := tradingTypePath + "/" + timePeriod + "/" + marketDataType + "/" + Upper(symbol) + "/"
                  + (if interval.Some? then interval.value + "/" else "");
      BasePathIsSegments(tradingType, marketDataType, timePeriod, symbol, interval);
      Success(path)
  }

  lemma PathOfSegments(head: seq<string>, headPath: string, tp: string, mdt: string, u: string, ivs: seq<string>, ivPath: string)
    requires JoinSegments(head) == headPath + "/" && JoinSegments(ivs) == ivPath
    ensures headPath + "/" + tp + "/" + mdt + "/" + u + "/" + ivPath == JoinSegments(head + [tp, mdt, u] + ivs)
  {
    JoinSegmentsAppend(head + [tp, mdt, u], ivs);
    JoinSegmentsAppend(head, [tp, mdt, u]);
    JoinThree(tp, mdt, u);
  }

  /** The f-string of `get_base_path` lists the segments of `BasePathSegments`. */
  lemma BasePathIsSegments(tradingType: string, marketDataType: string, timePeriod: string, symbol: string, interval: Option<string>)
    ensures (if tradingType == "um" || tradingType == "cm" then "data/futures/" + tradingType else "data/spot")
              + "/" + timePeriod + "/" + marketDataType + "/" + Upper(symbol) + "/"
              + (if interval.Some? then interval.value + "/" else "")
            == JoinSegments(BasePathSegments(tradingType, marketDataType, timePeriod, symbol, interval))
  {
    var ttPath := if tradingType == "um" || tradingType == "cm" then "data/futures/" + tradingType else "data/spot";
    var ivPath := if interval.Some? then interval.value + "/" else "";
    if interval.Some? {
      JoinOne(interval.value);
    }
    if tradingType == "um" || tradingType == "cm" {
      JoinThree("data", "futures", tradingType);
    } else {
      JoinTwo("data", "spot");
    }
    PathOfSegments(TradingTypeSegments(tradingType), ttPath, timePeriod, marketDataType, Upper(symbol),
                   IntervalSegments(interval), ivPath);
  }

  lemma PathPieces(ttPath: string, tp: string, mdt: string, u: string, ivPath: string)
    requires ivPath == [] || ivPath[|ivPath| - 1] == '/'
    ensures var p := ttPath + "/" + tp + "/" + mdt + "/" + u + "/" + ivPath;
      StartsWith(p, ttPath + "/") && IsAt(p, "/" + u + "/", |ttPath| + |tp| + |mdt| + 2) && EndsWith(p, "/")
  {
    var p := ttPath + "/" + tp + "/" + mdt + "/" + u + "/" + ivPath;
    var x := ttPath + "/";
    var y := tp + "/" + mdt;
    var z := "/" + u + "/";
    assert p == x + y + z + ivPath;
    assert p[..|x|] == x;
    assert p[|x| + |y|..|x| + |y| + |z|] == z;
    assert p[|p| - 1..] == [p[|p| - 1]];
  }

  /** A base path starts with its trading-type directory, holds the upper-cased symbol
      as a whole segment and ends with a slash. */
  lemma BasePathShape(tradingType: string, marketDataType: string, timePeriod: string, symbol: string, interval: Option<string>)
    requires tradingType in TradingTypes
    ensures var p := JoinSegments(BasePathSegments(tradingType, marketDataType, timePeriod, symbol, interval));
      StartsWith(p, if tradingType == "spot" then "data/spot/" else "data/futures/" + tradingType + "/")
      && Contains(p, "/" + Upper(symbol) + "/")
      && EndsWith(p, "/")
  {
    BasePathIsSegments(tradingType, marketDataType, timePeriod, symbol, interval);
    var ttPath := if tradingType == "um" || tradingType == "cm" then "data/futures/" + tradingType else "data/spot";
    var ivPath := if interval.Some? then interval.value + "/" else "";
    PathPieces(ttPath, timePeriod, marketDataType, Upper(symbol), ivPath);
  }

  // ---------------------------------------------------------------------------
  // The merged output path

  /** The directory `merge_database` writes one merged series to: the monthly base path with
      `data/` renamed to `merged/` (or dropped when an output directory is given), `monthly/`
      dropped and `{symbol}/` dropped, joined to the root or the output directory. */
  function MergedSavePath(rootDir: string, basePathMonthly: string, symbol: string, outputDir: Option<string>): string {
    var renamed := if outputDir.None? then Replace(basePathMonthly, "data/", "merged/") else Replace(basePathMonthly, "data/", "");
    var flat := Replace(renamed, "monthly/", "");
    Join(if outputDir.None? then rootDir else outputDir.value, Replace(flat, symbol + "/", ""))
  }

  /** `{save_path}/{symbol}.{output_format}`. */
  function MergedOutputFile(rootDir: string, basePathMonthly: string, symbol: string, outputDir: Option<string>, outputFormat: string): string {
    Join(MergedSavePath(rootDir, basePathMonthly, symbol, outputDir), symbol + "." + outputFormat)
  }

  /** A symbol as the archive writes it: upper-case letters and digits. */
  predicate PlainSymbol(s: string) {
    |s| > 0 && forall i :: 0 <= i < |s| ==> IsUpperLetter(s[i]) || IsDigit(s[i])
  }

  /** Ends with a lower-case letter, as every name in the tables does. */
  predicate EndsLower(x: string) {
    |x| > 0 && IsLowerLetter(x[|x| - 1])
  }

  lemma PlainSymbolIsUpper(s: string)
    requires PlainSymbol(s)
    ensures Upper(s) == s && Segment(s) && !EndsLower(s)
  {
  }

  /** A name that ends in a lower-case letter other than `a` and `y`: it is none of
      "data", "monthly" and a plain symbol, and ends with none of them. */
  predicate Ordinary(x: string) {
    Segment(x) && EndsLower(x) && x[|x| - 1] != 'a' && x[|x| - 1] != 'y'
  }

  /** The three patterns the merged path removes or renames. */
  predicate Keyword(w: string, symbol: string) {
    w == "data" || w == "monthly" || w == symbol
  }

  /** The segments of a monthly base path and of its rewrites. */
  predicate Allowed(segs: seq<string>, symbol: string) {
    forall i :: 0 <= i < |segs| ==> Ordinary(segs[i]) || Keyword(segs[i], symbol)
  }

  lemma TableNamesOrdinary()
    ensures forall t :: t in TradingTypes ==> Ordinary(t)
    ensures forall t :: t in MarketDataTypes ==> Ordinary(t)
    ensures forall t :: t in FuturesDataTypes ==> Ordinary(t)
    ensures forall t :: t in Intervals ==> Ordinary(t)
    ensures Ordinary("spot") && Ordinary("futures") && Ordinary("merged")
  {
    IntervalsOrdinary();
    DataTypesOrdinary();
  }

  lemma IntervalsOrdinary()
    ensures forall t :: t in Intervals ==> Ordinary(t)
  {
  }

  lemma DataTypesOrdinary()
    ensures forall t :: t in MarketDataTypes ==> Ordinary(t)
    ensures forall t :: t in FuturesDataTypes ==> Ordinary(t)
  {
  }

  /** A plain symbol is never the end of a segment that ends in a lower-case letter. */
  lemma NotSymbolEnd(x: string, s: string)
    requires EndsLower(x) && PlainSymbol(s)
    ensures !EndsWith(x, s)
  {
    if |s| <= |x| {
      assert x[|x| - |s|..][|s| - 1] == x[|x| - 1];
    }
  }

  /** An ordinary name is no keyword, and a plain symbol is neither "data" nor "monthly". */
  lemma OrdinaryNotKeyword(x: string, w: string, symbol: string)
    requires PlainSymbol(symbol) && Keyword(w, symbol)
    ensures Ordinary(x) ==> x != w
    ensures symbol != "data" && symbol != "monthly"
  {
    assert IsUpperLetter(symbol[0]) || IsDigit(symbol[0]);
    assert IsUpperLetter(symbol[|symbol| - 1]) || IsDigit(symbol[|symbol| - 1]);
  }

  lemma EndsWithLast(x: string, w: string)
    requires EndsWith(x, w) && |w| > 0
    ensures x[|x| - 1] == w[|w| - 1]
  {
    assert x[|x| - |w|..][|w| - 1] == x[|x| - 1];
  }

  /** Only a segment equal to a keyword ends with it. */
  lemma KeywordEnd(x: string, w: string, symbol: string)
    requires PlainSymbol(symbol) && Keyword(w, symbol)
    requires Ordinary(x) || Keyword(x, symbol)
    ensures Segment(x) && (EndsWith(x, w) ==> x == w)
  {
    PlainSymbolIsUpper(symbol);
    var last := symbol[|symbol| - 1];
    assert IsUpperLetter(last) || IsDigit(last);
    if EndsWith(x, w) {
      EndsWithLast(x, w);
      if w == symbol {
        assert x != "data" && x != "monthly" && !Ordinary(x);
      } else {
        assert x != symbol && !Ordinary(x);
        assert x[|x| - 1] != w[|w| - 1] || x == w;
      }
    }
  }

  /** A rewrite step of the merged path on an allowed segment list. */
  lemma ReplaceStep(segs: seq<string>, w: string, segsBy: seq<string>, symbol: string)
    requires PlainSymbol(symbol) && Keyword(w, symbol) && Allowed(segs, symbol)
    ensures Replace(JoinSegments(segs), w + "/", JoinSegments(segsBy)) == JoinSegments(Substitute(segs, w, segsBy))
  {
    PlainSymbolIsUpper(symbol);
    forall i | 0 <= i < |segs| ensures Segment(segs[i]) && (EndsWith(segs[i], w) ==> segs[i] == w) {
      KeywordEnd(segs[i], w, symbol);
    }
    ReplaceSegments(segs, w, segsBy);
  }

  lemma {:induction false} SubstituteAppend(a: seq<string>, b: seq<string>, w: string, segsBy: seq<string>)
    ensures Substitute(a + b, w, segsBy) == Substitute(a, w, segsBy) + Substitute(b, w, segsBy)
    decreases |a|
  {
    if a == [] {
      assert a + b == b;
    } else {
      assert (a + b)[0] == a[0];
      assert (a + b)[1..] == a[1..] + b;
      SubstituteAppend(a[1..], b, w, segsBy);
    }
  }

  /** Ordinary segments are left alone. */
  lemma {:induction false} SubstituteOrdinary(xs: seq<string>, w: string, segsBy: seq<string>, symbol: string)
    requires PlainSymbol(symbol) && Keyword(w, symbol)
    requires forall i :: 0 <= i < |xs| ==> Ordinary(xs[i])
    ensures Substitute(xs, w, segsBy) == xs
    decreases |xs|
  {
    if xs != [] {
      PlainSymbolIsUpper(symbol);
      assert xs[0] != w;
      SubstituteOrdinary(xs[1..], w, segsBy, symbol);
      assert [xs[0]] + xs[1..] == xs;
    }
  }

  lemma SubstituteOne(x: string, w: string, segsBy: seq<string>)
    ensures Substitute([x], w, segsBy) == if x == w then segsBy else [x]
  {
    assert [x][1..] == [];
  }

  lemma AllowedAppend(a: seq<string>, b: seq<string>, symbol: string)
    requires Allowed(a, symbol) && Allowed(b, symbol)
    ensures Allowed(a + b, symbol)
  {
    forall i | 0 <= i < |a + b| ensures Ordinary((a + b)[i]) || Keyword((a + b)[i], symbol) {
      if i >= |a| {
        assert (a + b)[i] == b[i - |a|];
      }
    }
  }

  /** `replace("data/", ...)` renames or drops the leading `data` segment only. */
  lemma RenameData(rest: seq<string>, segsBy: seq<string>, symbol: string)
    requires PlainSymbol(symbol)
    requires forall i :: 0 <= i < |rest| ==> Ordinary(rest[i]) || rest[i] == "monthly" || rest[i] == symbol
    ensures Replace(JoinSegments(["data"] + rest), "data/", JoinSegments(segsBy)) == JoinSegments(segsBy + rest)
  {
    AllowedAfterData(rest, symbol);
    ReplaceStep(["data"] + rest, "data", segsBy, symbol);
    SubstituteData(rest, segsBy, symbol);
  }

  lemma AllowedAfterData(rest: seq<string>, symbol: string)
    requires forall i :: 0 <= i < |rest| ==> Ordinary(rest[i]) || rest[i] == "monthly" || rest[i] == symbol
    ensures Allowed(["data"] + rest, symbol)
  {
    assert Allowed(["data"], symbol);
    assert Allowed(rest, symbol);
    AllowedAppend(["data"], rest, symbol);
  }

  lemma SubstituteData(rest: seq<string>, segsBy: seq<string>, symbol: string)
    requires PlainSymbol(symbol)
    requires forall i :: 0 <= i < |rest| ==> Ordinary(rest[i]) || rest[i] == "monthly" || rest[i] == symbol
    ensures Substitute(["data"] + rest, "data", segsBy) == segsBy + rest
  {
    SubstituteAppend(["data"], rest, "data", segsBy);
    SubstituteOne("data", "data", segsBy);
    PlainSymbolIsUpper(symbol);
    OrdinaryNotKeyword("x", "data", symbol);
    assert "data" !in rest by {
      forall i | 0 <= i < |rest| ensures rest[i] != "data" {
        if Ordinary(rest[i]) {
          OrdinaryNotKeyword(rest[i], "data", symbol);
        }
      }
    }
    SubstituteKeep(rest, "data", segsBy, symbol);
  }

  /** Substitution leaves a list in which the keyword does not occur unchanged. */
  lemma {:induction false} SubstituteKeep(xs: seq<string>, w: string, segsBy: seq<string>, symbol: string)
    requires w !in xs
    ensures Substitute(xs, w, segsBy) == xs
    decreases |xs|
  {
    if xs != [] {
      assert w !in xs[1..] by {
        forall i | 0 <= i < |xs[1..]| ensures xs[1..][i] != w {
          assert xs[1..][i] == xs[i + 1];
        }
      }
      SubstituteKeep(xs[1..], w, segsBy, symbol);
      assert [xs[0]] + xs[1..] == xs;
    }
  }

  /** A rewrite that removes the one segment `x` between ordinary parts. */
  lemma DropSegment(head: seq<string>, x: string, tail: seq<string>, symbol: string)
    requires PlainSymbol(symbol) && Keyword(x, symbol)
    requires forall i :: 0 <= i < |head| ==> Ordinary(head[i]) || (Keyword(head[i], symbol) && head[i] != x)
    requires forall i :: 0 <= i < |tail| ==> Ordinary(tail[i]) || (Keyword(tail[i], symbol) && tail[i] != x)
    ensures Replace(JoinSegments(head + [x] + tail), x + "/", "") == JoinSegments(head + tail)
  {
    AllowedAround(head, x, tail, symbol);
    assert JoinSegments([]) == "";
    ReplaceStep(head + [x] + tail, x, [], symbol);
    SubstituteDrop(head, x, tail, symbol);
  }

  lemma AllowedAround(head: seq<string>, x: string, tail: seq<string>, symbol: string)
    requires Keyword(x, symbol)
    requires forall i :: 0 <= i < |head| ==> Ordinary(head[i]) || (Keyword(head[i], symbol) && head[i] != x)
    requires forall i :: 0 <= i < |tail| ==> Ordinary(tail[i]) || (Keyword(tail[i], symbol) && tail[i] != x)
    ensures Allowed(head + [x] + tail, symbol)
  {
    assert Allowed(head, symbol) && Allowed([x], symbol) && Allowed(tail, symbol);
    AllowedAppend(head, [x], symbol);
    AllowedAppend(head + [x], tail, symbol);
  }

  lemma SubstituteDrop(head: seq<string>, x: string, tail: seq<string>, symbol: string)
    requires PlainSymbol(symbol) && Keyword(x, symbol)
    requires forall i :: 0 <= i < |head| ==> Ordinary(head[i]) || (Keyword(head[i], symbol) && head[i] != x)
    requires forall i :: 0 <= i < |tail| ==> Ordinary(tail[i]) || (Keyword(tail[i], symbol) && tail[i] != x)
    ensures Substitute(head + [x] + tail, x, []) == head + tail
  {
    SubstituteAppend(head + [x], tail, x, []);
    SubstituteAppend(head, [x], x, []);
    SubstituteOne(x, x, []);
    forall i | 0 <= i < |head| ensures head[i] != x {
      if Ordinary(head[i]) {
        OrdinaryNotKeyword(head[i], x, symbol);
      }
    }
    forall i | 0 <= i < |tail| ensures tail[i] != x {
      if Ordinary(tail[i]) {
        OrdinaryNotKeyword(tail[i], x, symbol);
      }
    }
    SubstituteKeep(head, x, [], symbol);
    SubstituteKeep(tail, x, [], symbol);
    assert head + [] == head;
  }

  /** Every segment is ordinary. */
  predicate AllOrdinary(xs: seq<string>) {
    forall i :: 0 <= i < |xs| ==> Ordinary(xs[i])
  }

  lemma AllOrdinaryAppend(a: seq<string>, b: seq<string>)
    requires AllOrdinary(a) && AllOrdinary(b)
    ensures AllOrdinary(a + b)
  {
    forall i | 0 <= i < |a + b| ensures Ordinary((a + b)[i]) {
      if i >= |a| {
        assert (a + b)[i] == b[i - |a|];
      }
    }
  }

  /** First rewrite: `data/` becomes `segsBy`. */
  lemma MergedRename(typeSegs: seq<string>, mdt: string, symbol: string, ivs: seq<string>, segsBy: seq<string>)
    requires PlainSymbol(symbol) && Ordinary(mdt) && AllOrdinary(typeSegs) && AllOrdinary(ivs)
    ensures Replace(JoinSegments(["data"] + (typeSegs + ["monthly", mdt, symbol] + ivs)), "data/", JoinSegments(segsBy))
            == JoinSegments(segsBy + typeSegs + ["monthly"] + ([mdt, symbol] + ivs))
  {
    var rest := typeSegs + ["monthly", mdt, symbol] + ivs;
    forall i | 0 <= i < |rest| ensures Ordinary(rest[i]) || rest[i] == "monthly" || rest[i] == symbol {
      if i < |typeSegs| {
        assert rest[i] == typeSegs[i];
      } else if i >= |typeSegs| + 3 {
        assert rest[i] == ivs[i - |typeSegs| - 3];
      }
    }
    RenameData(rest, segsBy, symbol);
    assert segsBy + rest == segsBy + typeSegs + ["monthly"] + ([mdt, symbol] + ivs);
  }

  /** Second rewrite: the `monthly` segment is dropped. */
  lemma MergedDropMonthly(head: seq<string>, mdt: string, symbol: string, ivs: seq<string>)
    requires PlainSymbol(symbol) && Ordinary(mdt) && AllOrdinary(head) && AllOrdinary(ivs)
    ensures Replace(JoinSegments(head + ["monthly"] + ([mdt, symbol] + ivs)), "monthly/", "")
            == JoinSegments(head + [mdt] + [symbol] + ivs)
  {
    var tail := [mdt, symbol] + ivs;
    OrdinaryNotKeyword(mdt, symbol, symbol);
    forall i | 0 <= i < |tail| ensures Ordinary(tail[i]) || (Keyword(tail[i], symbol) && tail[i] != "monthly") {
      if i >= 2 {
        assert tail[i] == ivs[i - 2];
      }
    }
    DropSegment(head, "monthly", tail, symbol);
    assert "monthly" + "/" == "monthly/";
    assert head + tail == head + [mdt] + [symbol] + ivs;
  }

  /** Third rewrite: the symbol segment is dropped. */
  lemma MergedDropSymbol(head: seq<string>, symbol: string, ivs: seq<string>)
    requires PlainSymbol(symbol) && AllOrdinary(head) && AllOrdinary(ivs)
    ensures Replace(JoinSegments(head + [symbol] + ivs), symbol + "/", "") == JoinSegments(head + ivs)
  {
    DropSegment(head, symbol, ivs, symbol);
  }

  /** The three rewrites on `data/{type...}/monthly/{mdt}/{SYMBOL}/{interval...}/`. */
  lemma MergedSegments(typeSegs: seq<string>, mdt: string, symbol: string, ivs: seq<string>, segsBy: seq<string>)
    requires PlainSymbol(symbol) && Ordinary(mdt) && AllOrdinary(typeSegs) && AllOrdinary(ivs)
    requires segsBy == ["merged"] || segsBy == []
    ensures var merged := Replace(Replace(Replace(JoinSegments(["data"] + (typeSegs + ["monthly", mdt, symbol] + ivs)),
                                                  "data/", JoinSegments(segsBy)),
                                          "monthly/", ""),
                                  symbol + "/", "");
      merged == JoinSegments(segsBy + typeSegs + [mdt] + ivs)
  {
    TableNamesOrdinary();
    assert AllOrdinary(segsBy);
    AllOrdinaryAppend(segsBy, typeSegs);
    var head := segsBy + typeSegs;
    MergedRename(typeSegs, mdt, symbol, ivs, segsBy);
    MergedDropMonthly(head, mdt, symbol, ivs);
    AllOrdinaryAppend(head, [mdt]);
    MergedDropSymbol(head + [mdt], symbol, ivs);
  }

  /** The directory of a merged series, on a monthly base path given by its segments. */
  lemma MergedSavePathOfSegments(rootDir: string, typeSegs: seq<string>, mdt: string, symbol: string, ivs: seq<string>, outputDir: Option<string>)
    requires PlainSymbol(symbol) && Ordinary(mdt) && AllOrdinary(typeSegs) && AllOrdinary(ivs)
    ensures MergedSavePath(rootDir, JoinSegments(["data"] + (typeSegs + ["monthly", mdt, symbol] + ivs)), symbol, outputDir)
            == Join(if outputDir.None? then rootDir else outputDir.value,
                    JoinSegments((if outputDir.None? then ["merged"] else []) + typeSegs + [mdt] + ivs))
  {
    var segsBy: seq<string> := if outputDir.None? then ["merged"] else [];
    if outputDir.None? {
      JoinOne("merged");
    }
    assert JoinSegments(segsBy) == if outputDir.None? then "merged/" else "";
    MergedSegments(typeSegs, mdt, symbol, ivs, segsBy);
  }

  /** The monthly base path, as the segment list the merged rewrites work on. */
  lemma MonthlyBasePathSegments(tradingType: string, marketDataType: string, symbol: string, interval: Option<string>)
    requires tradingType in TradingTypes && PlainSymbol(symbol)
    ensures BasePathSegments(tradingType, marketDataType, "monthly", symbol, interval)
            == ["data"] + (TradingTypeSegments(tradingType)[1..] + ["monthly", marketDataType, symbol] + IntervalSegments(interval))
    ensures AllOrdinary(TradingTypeSegments(tradingType)[1..])
  {
    PlainSymbolIsUpper(symbol);
    TableNamesOrdinary();
    var tts := TradingTypeSegments(tradingType);
    assert tts == ["data"] + tts[1..];
  }

  /** The merged file of a series is `merged/{spot | futures/tt}/{type}/[{interval}/]{SYMBOL}.{fmt}`
      under the root, or the same without `merged/` under the output directory; the symbol
      and `monthly` segments are gone. */
  lemma MergedOutputFileShape(rootDir: string, tradingType: string, marketDataType: string, symbol: string,
                              interval: Option<string>, outputDir: Option<string>, outputFormat: string)
    requires BasePathArgsOk(tradingType, marketDataType, "monthly", interval) && PlainSymbol(symbol)
    ensures MergedOutputFile(rootDir, GetBasePath(tradingType, marketDataType, "monthly", symbol, interval).value, symbol, outputDir, outputFormat)
            == Join(Join(if outputDir.None? then rootDir else outputDir.value,
                         JoinSegments((if outputDir.None? then ["merged"] else [])
                                      + TradingTypeSegments(tradingType)[1..] + [marketDataType] + IntervalSegments(interval))),
                    symbol + "." + outputFormat)
  {
    TableNamesOrdinary();
    var ivs := IntervalSegments(interval);
    assert AllOrdinary(ivs);
    assert Ordinary(marketDataType);
    MonthlyBasePathSegments(tradingType, marketDataType, symbol, interval);
    MergedSavePathOfSegments(rootDir, TradingTypeSegments(tradingType)[1..], marketDataType, symbol, ivs, outputDir);
  }
}
