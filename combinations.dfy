/** The keys of the archive: `get_valid_combinations`, which lists every
    (symbol, trading type, data type, interval) to fetch or merge, and
    `get_cols`, the column list of a data type (bdms/utils.py). */
module Combinations {
  import opened Wrappers
  import opened Text
  import opened Enums

  /** One key: `(symbol, trading_type, data_type, interval)`, the interval `None` for non-kline types. */
  datatype Combination = Combination(symbol: string, tradingType: string, dataType: string, interval: Option<string>)

  // ---------------------------------------------------------------------------
  // Helpers on lists

  /** `xs.remove(x)` on a copy: drops the first `x`, if any. */
  function RemoveFirst(xs: seq<string>, x: string): (r: seq<string>)
    ensures x in xs ==> multiset(r) == multiset(xs) - multiset{x}
    ensures x in xs ==> r == xs[..FirstIndex(xs, x)] + xs[FirstIndex(xs, x) + 1..]
    ensures x !in xs ==> r == xs
  {
    var r := (if xs == [] then []
              else if xs[0] == x then xs[1..]
              else
                var rest := RemoveFirst(xs[1..], x);
                RemoveFirstCons(xs, x, rest);
                [xs[0]] + rest);
    if x in xs then
      SliceOutMultiset(xs, FirstIndex(xs, x));
      r
    else r
  }

  /** Taking out the element at `k` takes one of it out of the multiset. */
  lemma SliceOutMultiset(xs: seq<string>, k: nat)
    requires k < |xs|
    ensures multiset(xs[..k] + xs[k + 1..]) == multiset(xs) - multiset{xs[k]}
  {
    assert xs == xs[..k] + [xs[k]] + xs[k + 1..];
  }

  lemma RemoveFirstCons(xs: seq<string>, x: string, rest: seq<string>)
    requires xs != [] && xs[0] != x
    requires x in xs[1..] ==> rest == xs[1..][..FirstIndex(xs[1..], x)] + xs[1..][FirstIndex(xs[1..], x) + 1..]
    requires x !in xs[1..] ==> rest == xs[1..]
    ensures x in xs ==> [xs[0]] + rest == xs[..FirstIndex(xs, x)] + xs[FirstIndex(xs, x) + 1..]
    ensures x !in xs ==> [xs[0]] + rest == xs
  {
    assert xs == [xs[0]] + xs[1..];
    if x in xs {
      assert x in xs[1..];
      var i := FirstIndex(xs[1..], x);
      assert FirstIndex(xs, x) == i + 1;
      assert xs[..i + 1] == [xs[0]] + xs[1..][..i];
      assert xs[i + 2..] == xs[1..][i + 1..];
    }
  }

  /** `xs.index(x)`: the position of the first `x`. */
  function FirstIndex(xs: seq<string>, x: string): (k: nat)
    requires x in xs
    ensures k < |xs| && xs[k] == x && x !in xs[..k]
  {
    if xs[0] == x then 0
    else
      assert x in xs[1..] by { assert xs == [xs[0]] + xs[1..]; }
      var k := FirstIndex(xs[1..], x);
      assert xs[..k + 1] == [xs[0]] + xs[1..][..k];
      k + 1
  }

  /** `[t for t in ts if t in MARKET_DATA_TYPES]`. */
  function MarketOnly(ts: seq<string>): (r: seq<string>)
    ensures forall t :: t in r <==> t in ts && t in MarketDataTypes
    ensures forall t :: multiset(r)[t] == if t in MarketDataTypes then multiset(ts)[t] else 0
  {
    if ts == [] then []
    else
      assert ts == [ts[0]] + ts[1..];
      (if ts[0] in MarketDataTypes then [ts[0]] else []) + MarketOnly(ts[1..])
  }

  /** The filter keeps the order of its input: it distributes over concatenation. */
  lemma {:induction false} MarketOnlyAppend(a: seq<string>, b: seq<string>)
    ensures MarketOnly(a + b) == MarketOnly(a) + MarketOnly(b)
    decreases |a|
  {
    if a != [] {
      assert (a + b)[1..] == a[1..] + b;
      MarketOnlyAppend(a[1..], b);
    } else {
      assert a + b == b;
    }
  }

  /** On one data type, the filter keeps it exactly when it is a market data type. */
  lemma MarketOnlyOne(t: string)
    ensures MarketOnly([t]) == if t in MarketDataTypes then [t] else []
  {
    assert [t][1..] == [];
  }

  /** The intervals the kline loops run over; `None` only reaches them with no kline type. */
  function IntervalList(intervals: Option<seq<string>>): seq<string> {
    if intervals.Some? then intervals.value else []
  }

  // ---------------------------------------------------------------------------
  // The list, level by level, in the order the loops append

  /** The kline entries for one type: one per interval, skipping "1s" when `skip1s`. */
  function ExpandIntervals(symbol: string, tradingType: string, dataType: string, ivs: seq<string>, skip1s: bool): seq<Combination> {
    if ivs == [] then []
    else
      var last := ivs[|ivs| - 1];
      ExpandIntervals(symbol, tradingType, dataType, ivs[..|ivs| - 1], skip1s)
      + (if skip1s && last == "1s" then [] else [Combination(symbol, tradingType, dataType, Some(last))])
  }

  /** The entries for one data type: one with interval `None`, or one per interval for kline types. */
  function Entries(symbol: string, tradingType: string, dataType: string, ivs: seq<string>, skip1s: bool): seq<Combination> {
    if !IsKlines(dataType) then [Combination(symbol, tradingType, dataType, None)]
    else ExpandIntervals(symbol, tradingType, dataType, ivs, skip1s)
  }

  /** The entries of one symbol and trading type over the data types; the futures loop skips
      "1s" for futures data types, the spot loop does not. */
  function ForDataTypes(symbol: string, tradingType: string, dts: seq<string>, ivs: seq<string>, futuresLoop: bool): seq<Combination> {
    if dts == [] then []
    else
      var last := dts[|dts| - 1];
      ForDataTypes(symbol, tradingType, dts[..|dts| - 1], ivs, futuresLoop)
      + Entries(symbol, tradingType, last, ivs, futuresLoop && last in FuturesDataTypes)
  }

  /** The futures entries of one symbol, trading type by trading type. */
  function ForTradingTypes(symbol: string, tts: seq<string>, dts: seq<string>, ivs: seq<string>): seq<Combination> {
    if tts == [] then []
    else ForTradingTypes(symbol, tts[..|tts| - 1], dts, ivs) + ForDataTypes(symbol, tts[|tts| - 1], dts, ivs, true)
  }

  /** `product(symbols, spot_data_types)`, symbol by symbol. */
  function SpotBlock(symbols: seq<string>, spotTypes: seq<string>, ivs: seq<string>): seq<Combination> {
    if symbols == [] then []
    else SpotBlock(symbols[..|symbols| - 1], spotTypes, ivs) + ForDataTypes(symbols[|symbols| - 1], "spot", spotTypes, ivs, false)
  }

  /** `product(symbols, trading_types)` over all data types, symbol by symbol. */
  function FuturesBlock(symbols: seq<string>, tts: seq<string>, dts: seq<string>, ivs: seq<string>): seq<Combination> {
    if symbols == [] then []
    else FuturesBlock(symbols[..|symbols| - 1], tts, dts, ivs) + ForTradingTypes(symbols[|symbols| - 1], tts, dts, ivs)
  }

  /** The trading types the futures loop runs over: the copy with its first "spot" removed. */
  function FuturesTradingTypes(tradingTypes: seq<string>): seq<string> {
    if "spot" in tradingTypes then RemoveFirst(tradingTypes, "spot") else tradingTypes
  }

  /** The list `get_valid_combinations` returns once its assertions pass. */
  function ValidCombinations(symbols: seq<string>, tradingTypes: seq<string>, marketDataTypes: seq<string>, intervals: Option<seq<string>>): seq<Combination> {
    var ivs := IntervalList(intervals);
    (if "spot" in tradingTypes then SpotBlock(symbols, MarketOnly(marketDataTypes), ivs) else [])
    + FuturesBlock(symbols, FuturesTradingTypes(tradingTypes), marketDataTypes, ivs)
  }

  /** First assertion: every requested interval is known. */
  predicate IntervalsKnown(intervals: Option<seq<string>>) {
    intervals.None? || forall i :: i in intervals.value ==> i in Intervals
  }

  /** Second assertion: every trading type is known. */
  predicate TradingTypesKnown(tradingTypes: seq<string>) {
    forall t :: t in tradingTypes ==> t in TradingTypes
  }

  /** Third assertion: futures data types need a futures trading type. */
  predicate FuturesTypesServed(tradingTypes: seq<string>, marketDataTypes: seq<string>) {
    (exists t :: t in marketDataTypes && t in FuturesDataTypes) ==> "um" in tradingTypes || "cm" in tradingTypes
  }

  /** `any(t in MARKET_DATA_TYPES for t in market_data_types)`. */
  predicate SomeMarketType(marketDataTypes: seq<string>) {
    exists t :: t in marketDataTypes && t in MarketDataTypes
  }

  /** Fifth assertion: kline types need intervals. */
  predicate KlinesHaveIntervals(marketDataTypes: seq<string>, intervals: Option<seq<string>>) {
    intervals.None? ==> forall t :: t in marketDataTypes ==> !IsKlines(t)
  }

  /** The assertions at the head of `get_valid_combinations`, in order. */
  predicate CombinationArgsOk(tradingTypes: seq<string>, marketDataTypes: seq<string>, intervals: Option<seq<string>>) {
    IntervalsKnown(intervals)
    && TradingTypesKnown(tradingTypes)
    && FuturesTypesServed(tradingTypes, marketDataTypes)
    && ("spot" in tradingTypes ==> SomeMarketType(marketDataTypes))
    && KlinesHaveIntervals(marketDataTypes, intervals)
    && (intervals == Some(["1s"]) ==> SomeMarketType(marketDataTypes))
  }

  // ---------------------------------------------------------------------------
  // get_valid_combinations

  /** `get_valid_combinations`: the `AssertionError` of the first failing assertion, or the keys
      in loop order (spot keys first, then the futures keys). */
  method GetValidCombinations(symbols: seq<string>, tradingTypes: seq<string>, marketDataTypes: seq<string>, intervals: Option<seq<string>>)
    returns (r: Result<seq<Combination>, Error>)
    ensures r.Success? <==> CombinationArgsOk(tradingTypes, marketDataTypes, intervals)
    ensures r.Failure? ==> r.error.AssertionError?
    ensures r.Success? ==> r.value == ValidCombinations(symbols, tradingTypes, marketDataTypes, intervals)
  {
    if !IntervalsKnown(intervals) {
      return Failure(AssertionError("Invalid interval. Choose from enums.INTERVAL"));
    }
    if !TradingTypesKnown(tradingTypes) {
      return Failure(AssertionError("Invalid trading type. Choose from spot, um, cm."));
    }
    if !FuturesTypesServed(tradingTypes, marketDataTypes) {
      return Failure(AssertionError("Futures market data types are only available for um and cm."));
    }
    if "spot" in tradingTypes && !SomeMarketType(marketDataTypes) {
      return Failure(AssertionError("Found no valid market data type for spot."));
    }
    if !KlinesHaveIntervals(marketDataTypes, intervals) {
      return Failure(AssertionError("Intervals must be specified for klines data."));
    }
    if intervals == Some(["1s"]) && !SomeMarketType(marketDataTypes) {
      return Failure(AssertionError("1s intervals not available for selected futures market data types."));
    }

    var combinations := BuildCombinations(symbols, tradingTypes, marketDataTypes, intervals);
    r := Success(combinations);
  }

  /** The two loops of `get_valid_combinations`, spot first, once the assertions passed. */
  method BuildCombinations(symbols: seq<string>, tradingTypes: seq<string>, marketDataTypes: seq<string>, intervals: Option<seq<string>>)
    returns (combinations: seq<Combination>)
    ensures combinations == ValidCombinations(symbols, tradingTypes, marketDataTypes, intervals)
  {
    var ivs := IntervalList(intervals);
    combinations := [];
    var tts := tradingTypes;
    if "spot" in tts {
      var spotTypes := MarketOnly(marketDataTypes);
      tts := RemoveFirst(tts, "spot");
      combinations := AppendSpotKeys(combinations, symbols, spotTypes, ivs);
    }
    assert combinations == if "spot" in tradingTypes then SpotBlock(symbols, MarketOnly(marketDataTypes), ivs) else [];
    assert tts == FuturesTradingTypes(tradingTypes);
    combinations := AppendFuturesKeys(combinations, symbols, tts, marketDataTypes, ivs);
  }

  /** The spot loop: `product(symbols, spot_data_types)`. */
  method AppendSpotKeys(acc: seq<Combination>, symbols: seq<string>, spotTypes: seq<string>, ivs: seq<string>)
    returns (r: seq<Combination>)
    ensures r == acc + SpotBlock(symbols, spotTypes, ivs)
  {
    r := acc;
    var i := 0;
    while i < |symbols|
      invariant 0 <= i <= |symbols|
      invariant r == acc + SpotBlock(symbols[..i], spotTypes, ivs)
    {
      ghost var before := r;
      r := AppendDataTypes(r, symbols[i], "spot", spotTypes, ivs, false);
      SpotBlockSnoc(acc, before, r, symbols, i, spotTypes, ivs);
      i := i + 1;
    }
    assert symbols[..i] == symbols;
  }

  /** The futures loop: `product(symbols, trading_types)`, then every data type. */
  method AppendFuturesKeys(acc: seq<Combination>, symbols: seq<string>, tts: seq<string>, dts: seq<string>, ivs: seq<string>)
    returns (r: seq<Combination>)
    ensures r == acc + FuturesBlock(symbols, tts, dts, ivs)
  {
    r := acc;
    var i := 0;
    while i < |symbols|
      invariant 0 <= i <= |symbols|
      invariant r == acc + FuturesBlock(symbols[..i], tts, dts, ivs)
    {
      ghost var before := r;
      r := AppendTradingTypes(r, symbols[i], tts, dts, ivs);
      FuturesBlockSnoc(acc, before, r, symbols, i, tts, dts, ivs);
      i := i + 1;
    }
    assert symbols[..i] == symbols;
  }

  /** The loop over the futures trading types of one symbol. */
  method AppendTradingTypes(acc: seq<Combination>, symbol: string, tts: seq<string>, dts: seq<string>, ivs: seq<string>)
    returns (r: seq<Combination>)
    ensures r == acc + ForTradingTypes(symbol, tts, dts, ivs)
  {
    r := acc;
    var t := 0;
    while t < |tts|
      invariant 0 <= t <= |tts|
      invariant r == acc + ForTradingTypes(symbol, tts[..t], dts, ivs)
    {
      ghost var before := r;
      r := AppendDataTypes(r, symbol, tts[t], dts, ivs, true);
      ForTradingTypesSnoc(acc, before, r, symbol, tts, t, dts, ivs);
      t := t + 1;
    }
    assert tts[..t] == tts;
  }

  /** The loop over the data types of one symbol and trading type. */
  method AppendDataTypes(acc: seq<Combination>, symbol: string, tradingType: string, dts: seq<string>, ivs: seq<string>, futuresLoop: bool)
    returns (r: seq<Combination>)
    ensures r == acc + ForDataTypes(symbol, tradingType, dts, ivs, futuresLoop)
  {
    r := acc;
    var j := 0;
    while j < |dts|
      invariant 0 <= j <= |dts|
      invariant r == acc + ForDataTypes(symbol, tradingType, dts[..j], ivs, futuresLoop)
    {
      var skip := futuresLoop && dts[j] in FuturesDataTypes;
      ghost var before := r;
      r := AppendEntries(r, symbol, tradingType, dts[j], ivs, skip);
      ForDataTypesSnoc(acc, before, r, symbol, tradingType, dts, j, ivs, futuresLoop);
      j := j + 1;
    }
    assert dts[..j] == dts;
  }

  lemma ForDataTypesSnoc(acc: seq<Combination>, before: seq<Combination>, after: seq<Combination>,
                         symbol: string, tradingType: string, dts: seq<string>, j: nat, ivs: seq<string>, futuresLoop: bool)
    requires j < |dts|
    requires before == acc + ForDataTypes(symbol, tradingType, dts[..j], ivs, futuresLoop)
    requires after == before + Entries(symbol, tradingType, dts[j], ivs, futuresLoop && dts[j] in FuturesDataTypes)
    ensures after == acc + ForDataTypes(symbol, tradingType, dts[..j + 1], ivs, futuresLoop)
  {
    ForDataTypesUnfold(symbol, tradingType, dts, j, ivs, futuresLoop);
  }

  lemma ForDataTypesUnfold(symbol: string, tradingType: string, dts: seq<string>, j: nat, ivs: seq<string>, futuresLoop: bool)
    requires j < |dts|
    ensures ForDataTypes(symbol, tradingType, dts[..j + 1], ivs, futuresLoop)
            == ForDataTypes(symbol, tradingType, dts[..j], ivs, futuresLoop)
               + Entries(symbol, tradingType, dts[j], ivs, futuresLoop && dts[j] in FuturesDataTypes)
  {
    var init := dts[..j + 1];
    assert init[..|init| - 1] == dts[..j];
    assert init[|init| - 1] == dts[j];
  }

  lemma ForTradingTypesSnoc(acc: seq<Combination>, before: seq<Combination>, after: seq<Combination>,
                            symbol: string, tts: seq<string>, t: nat, dts: seq<string>, ivs: seq<string>)
    requires t < |tts|
    requires before == acc + ForTradingTypes(symbol, tts[..t], dts, ivs)
    requires after == before + ForDataTypes(symbol, tts[t], dts, ivs, true)
    ensures after == acc + ForTradingTypes(symbol, tts[..t + 1], dts, ivs)
  {
    ForTradingTypesUnfold(symbol, tts, t, dts, ivs);
  }

  lemma ForTradingTypesUnfold(symbol: string, tts: seq<string>, t: nat, dts: seq<string>, ivs: seq<string>)
    requires t < |tts|
    ensures ForTradingTypes(symbol, tts[..t + 1], dts, ivs)
            == ForTradingTypes(symbol, tts[..t], dts, ivs) + ForDataTypes(symbol, tts[t], dts, ivs, true)
  {
    var init := tts[..t + 1];
    assert init[..|init| - 1] == tts[..t];
    assert init[|init| - 1] == tts[t];
  }

  lemma SpotBlockSnoc(acc: seq<Combination>, before: seq<Combination>, after: seq<Combination>,
                      symbols: seq<string>, i: nat, spotTypes: seq<string>, ivs: seq<string>)
    requires i < |symbols|
    requires before == acc + SpotBlock(symbols[..i], spotTypes, ivs)
    requires after == before + ForDataTypes(symbols[i], "spot", spotTypes, ivs, false)
    ensures after == acc + SpotBlock(symbols[..i + 1], spotTypes, ivs)
  {
    SpotBlockUnfold(symbols, i, spotTypes, ivs);
  }

  lemma SpotBlockUnfold(symbols: seq<string>, i: nat, spotTypes: seq<string>, ivs: seq<string>)
    requires i < |symbols|
    ensures SpotBlock(symbols[..i + 1], spotTypes, ivs)
            == SpotBlock(symbols[..i], spotTypes, ivs) + ForDataTypes(symbols[i], "spot", spotTypes, ivs, false)
  {
    var init := symbols[..i + 1];
    assert init[..|init| - 1] == symbols[..i];
    assert init[|init| - 1] == symbols[i];
  }

  lemma FuturesBlockSnoc(acc: seq<Combination>, before: seq<Combination>, after: seq<Combination>,
                         symbols: seq<string>, i: nat, tts: seq<string>, dts: seq<string>, ivs: seq<string>)
    requires i < |symbols|
    requires before == acc + FuturesBlock(symbols[..i], tts, dts, ivs)
    requires after == before + ForTradingTypes(symbols[i], tts, dts, ivs)
    ensures after == acc + FuturesBlock(symbols[..i + 1], tts, dts, ivs)
  {
    FuturesBlockUnfold(symbols, i, tts, dts, ivs);
  }

  lemma FuturesBlockUnfold(symbols: seq<string>, i: nat, tts: seq<string>, dts: seq<string>, ivs: seq<string>)
    requires i < |symbols|
    ensures FuturesBlock(symbols[..i + 1], tts, dts, ivs)
            == FuturesBlock(symbols[..i], tts, dts, ivs) + ForTradingTypes(symbols[i], tts, dts, ivs)
  {
    var init := symbols[..i + 1];
    assert init[..|init| - 1] == symbols[..i];
    assert init[|init| - 1] == symbols[i];
  }

  /** The body of the innermost loops: append the entries of one data type. */
  method AppendEntries(acc: seq<Combination>, symbol: string, tradingType: string, dataType: string, ivs: seq<string>, skip1s: bool)
    returns (r: seq<Combination>)
    ensures r == acc + Entries(symbol, tradingType, dataType, ivs, skip1s)
  {
    r := acc;
    if !IsKlines(dataType) {
      r := r + [Combination(symbol, tradingType, dataType, None)];
    } else {
      var k := 0;
      while k < |ivs|
        invariant 0 <= k <= |ivs|
        invariant r == acc + ExpandIntervals(symbol, tradingType, dataType, ivs[..k], skip1s)
      {
        assert ivs[..k + 1][..k] == ivs[..k];
        if !(ivs[k] == "1s" && skip1s) {
          r := r + [Combination(symbol, tradingType, dataType, Some(ivs[k]))];
        }
        k := k + 1;
      }
      assert ivs[..k] == ivs;
    }
  }

  // ---------------------------------------------------------------------------
  // Which keys the list holds

  /** The interval of an entry is allowed for its data type. */
  predicate Admits(c: Combination, ivs: seq<string>, skip1s: bool) {
    if IsKlines(c.dataType) then c.interval.Some? && c.interval.value in ivs && !(skip1s && c.interval.value == "1s")
    else c.interval.None?
  }

  lemma {:induction false} ExpandIntervalsMembers(symbol: string, tradingType: string, dataType: string, ivs: seq<string>, skip1s: bool, c: Combination)
    ensures c in ExpandIntervals(symbol, tradingType, dataType, ivs, skip1s)
            <==> c.symbol == symbol && c.tradingType == tradingType && c.dataType == dataType
                 && c.interval.Some? && c.interval.value in ivs && !(skip1s && c.interval.value == "1s")
    decreases |ivs|
  {
    if ivs != [] {
      var init := ivs[..|ivs| - 1];
      assert ivs == init + [ivs[|ivs| - 1]];
      ExpandIntervalsMembers(symbol, tradingType, dataType, init, skip1s, c);
    }
  }

  lemma EntriesMembers(symbol: string, tradingType: string, dataType: string, ivs: seq<string>, skip1s: bool, c: Combination)
    ensures c in Entries(symbol, tradingType, dataType, ivs, skip1s)
            <==> c.symbol == symbol && c.tradingType == tradingType && c.dataType == dataType && Admits(c, ivs, skip1s)
  {
    ExpandIntervalsMembers(symbol, tradingType, dataType, ivs, skip1s, c);
  }

  lemma {:induction false} ForDataTypesMembers(symbol: string, tradingType: string, dts: seq<string>, ivs: seq<string>, futuresLoop: bool, c: Combination)
    ensures c in ForDataTypes(symbol, tradingType, dts, ivs, futuresLoop)
            <==> c.symbol == symbol && c.tradingType == tradingType && c.dataType in dts
                 && Admits(c, ivs, futuresLoop && c.dataType in FuturesDataTypes)
    decreases |dts|
  {
    if dts != [] {
      var init := dts[..|dts| - 1];
      var last := dts[|dts| - 1];
      assert dts == init + [last];
      ForDataTypesMembers(symbol, tradingType, init, ivs, futuresLoop, c);
      EntriesMembers(symbol, tradingType, last, ivs, futuresLoop && last in FuturesDataTypes, c);
    }
  }

  lemma {:induction false} ForTradingTypesMembers(symbol: string, tts: seq<string>, dts: seq<string>, ivs: seq<string>, c: Combination)
    ensures c in ForTradingTypes(symbol, tts, dts, ivs)
            <==> c.symbol == symbol && c.tradingType in tts && c.dataType in dts
                 && Admits(c, ivs, c.dataType in FuturesDataTypes)
    decreases |tts|
  {
    if tts != [] {
      var init := tts[..|tts| - 1];
      var last := tts[|tts| - 1];
      assert tts == init + [last];
      ForTradingTypesMembers(symbol, init, dts, ivs, c);
      ForDataTypesMembers(symbol, last, dts, ivs, true, c);
    }
  }

  lemma {:induction false} SpotBlockMembers(symbols: seq<string>, spotTypes: seq<string>, ivs: seq<string>, c: Combination)
    ensures c in SpotBlock(symbols, spotTypes, ivs)
            <==> c.symbol in symbols && c.tradingType == "spot" && c.dataType in spotTypes && Admits(c, ivs, false)
    decreases |symbols|
  {
    if symbols != [] {
      var init := symbols[..|symbols| - 1];
      var last := symbols[|symbols| - 1];
      assert symbols == init + [last];
      SpotBlockMembers(init, spotTypes, ivs, c);
      ForDataTypesMembers(last, "spot", spotTypes, ivs, false, c);
    }
  }

  lemma {:induction false} FuturesBlockMembers(symbols: seq<string>, tts: seq<string>, dts: seq<string>, ivs: seq<string>, c: Combination)
    ensures c in FuturesBlock(symbols, tts, dts, ivs)
            <==> c.symbol in symbols && c.tradingType in tts && c.dataType in dts
                 && Admits(c, ivs, c.dataType in FuturesDataTypes)
    decreases |symbols|
  {
    if symbols != [] {
      var init := symbols[..|symbols| - 1];
      var last := symbols[|symbols| - 1];
      assert symbols == init + [last];
      FuturesBlockMembers(init, tts, dts, ivs, c);
      ForTradingTypesMembers(last, tts, dts, ivs, c);
    }
  }

  /** A key is listed exactly when its symbol is requested and either it is a spot key of a
      requested market data type, or its trading type is among the futures loop's trading
      types; its interval is `None` for non-kline types, and one of the requested intervals
      for kline types, with "1s" never paired with a futures data type. */
  lemma ValidCombinationsMembers(symbols: seq<string>, tradingTypes: seq<string>, marketDataTypes: seq<string>, intervals: Option<seq<string>>, c: Combination)
    ensures c in ValidCombinations(symbols, tradingTypes, marketDataTypes, intervals)
            <==> c.symbol in symbols && c.dataType in marketDataTypes
                 && ((("spot" in tradingTypes && c.tradingType == "spot" && c.dataType in MarketDataTypes)
                      && Admits(c, IntervalList(intervals), false))
                     || (c.tradingType in FuturesTradingTypes(tradingTypes)
                         && Admits(c, IntervalList(intervals), c.dataType in FuturesDataTypes)))
  {
    var ivs := IntervalList(intervals);
    SpotBlockMembers(symbols, MarketOnly(marketDataTypes), ivs, c);
    FuturesBlockMembers(symbols, FuturesTradingTypes(tradingTypes), marketDataTypes, ivs, c);
  }

  /** Every listed key has a requested symbol and data type; the interval is `None` exactly
      for non-kline types, is a requested interval otherwise, and "1s" goes with no futures
      data type. */
  lemma ValidCombinationsIntervals(symbols: seq<string>, tradingTypes: seq<string>, marketDataTypes: seq<string>, intervals: Option<seq<string>>)
    ensures forall c :: c in ValidCombinations(symbols, tradingTypes, marketDataTypes, intervals) ==>
              c.symbol in symbols && c.dataType in marketDataTypes
              && (c.interval.None? <==> !IsKlines(c.dataType))
              && (c.interval.Some? ==> c.interval.value in IntervalList(intervals))
              && (c.interval == Some("1s") ==> c.dataType !in FuturesDataTypes)
  {
    forall c | c in ValidCombinations(symbols, tradingTypes, marketDataTypes, intervals)
      ensures c.symbol in symbols && c.dataType in marketDataTypes
              && (c.interval.None? <==> !IsKlines(c.dataType))
              && (c.interval.Some? ==> c.interval.value in IntervalList(intervals))
              && (c.interval == Some("1s") ==> c.dataType !in FuturesDataTypes)
    {
      ValidCombinationsMembers(symbols, tradingTypes, marketDataTypes, intervals, c);
      DataTypeTablesDisjoint();
    }
  }

  lemma {:induction false} RemoveFirstOnce(xs: seq<string>, x: string)
    requires multiset(xs)[x] <= 1
    ensures x !in RemoveFirst(xs, x)
    decreases |xs|
  {
    if xs != [] && xs[0] != x {
      assert xs == [xs[0]] + xs[1..];
      RemoveFirstOnce(xs[1..], x);
    } else if xs != [] {
      assert xs == [x] + xs[1..];
      assert multiset(xs[1..])[x] == 0;
    }
  }

  /** When "spot" is requested at most once, all spot keys come before all futures keys. */
  lemma SpotFirst(symbols: seq<string>, tradingTypes: seq<string>, marketDataTypes: seq<string>, intervals: Option<seq<string>>)
    requires multiset(tradingTypes)["spot"] <= 1
    ensures var r := ValidCombinations(symbols, tradingTypes, marketDataTypes, intervals);
      forall i, j :: 0 <= i < j < |r| && r[j].tradingType == "spot" ==> r[i].tradingType == "spot"
  {
    var ivs := IntervalList(intervals);
    var spot := if "spot" in tradingTypes then SpotBlock(symbols, MarketOnly(marketDataTypes), ivs) else [];
    var futures := FuturesBlock(symbols, FuturesTradingTypes(tradingTypes), marketDataTypes, ivs);
    var r := spot + futures;
    assert "spot" !in FuturesTradingTypes(tradingTypes) by {
      if "spot" in tradingTypes {
        RemoveFirstOnce(tradingTypes, "spot");
      }
    }
    forall i | 0 <= i < |r| ensures r[i].tradingType == "spot" <==> i < |spot| {
      if i < |spot| {
        assert r[i] == spot[i];
        SpotBlockMembers(symbols, MarketOnly(marketDataTypes), ivs, spot[i]);
      } else {
        assert r[i] == futures[i - |spot|];
        FuturesBlockMembers(symbols, FuturesTradingTypes(tradingTypes), marketDataTypes, ivs, futures[i - |spot|]);
      }
    }
  }

  // ---------------------------------------------------------------------------
  // get_cols

  /** `get_cols`: the futures column map for a non-spot trading type, the spot map otherwise;
      a `KeyError` for a data type the map lacks. */
  function GetCols(tradingType: string, marketDataType: string): (r: Result<seq<string>, Error>)
    ensures r.Success? <==> marketDataType in (if tradingType != "spot" then FuturesColumnsMap else SpotColumnsMap)
    ensures r.Failure? ==> r.error == KeyError(marketDataType)
    ensures r.Success? ==> r.value == (if tradingType != "spot" then FuturesColumnsMap else SpotColumnsMap)[marketDataType]
  {
    var m := if tradingType != "spot" then FuturesColumnsMap else SpotColumnsMap;
    if marketDataType in m then Success(m[marketDataType]) else Failure(KeyError(marketDataType))
  }

  /** The kline-like types have the kline columns; futures trade files lack `is_best_match`;
      the spot map has no futures data type. */
  lemma GetColsTables(tradingType: string)
    requires tradingType != "spot"
    ensures forall t :: t in ["klines", "indexPriceKlines", "markPriceKlines", "premiumIndexKlines"] ==> GetCols(tradingType, t) == Success(KlineColumns)
    ensures GetCols("spot", "klines") == Success(KlineColumns)
    ensures GetCols(tradingType, "trades").value + ["is_best_match"] == GetCols("spot", "trades").value
    ensures GetCols(tradingType, "aggTrades").value + ["is_best_match"] == GetCols("spot", "aggTrades").value
    ensures forall t :: t in FuturesDataTypes ==> GetCols("spot", t) == Failure(KeyError(t))
  {
    FuturesTradeColumnsDropBestMatch();
    ColumnMapKeys();
  }
}
