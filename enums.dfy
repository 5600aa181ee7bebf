/** The constant tables of the archive: endpoints, trading types, data types,
    kline intervals, earliest dates and column lists. */
module Enums {
  import opened Text

  const BaseUrl: string := "https://data.binance.vision/"

  /** Kline intervals. */
  const Intervals: seq<string> := [
    "1s", "1m", "3m", "5m", "15m", "30m",
    "1h", "2h", "4h", "6h", "8h", "12h",
    "1d", "3d", "1w", "1mo"
  ]

  const TradingTypes: seq<string> := ["spot", "um", "cm"]

  const MarketDataTypes: seq<string> := ["trades", "aggTrades", "klines"]

  const FuturesDataTypes: seq<string> := [
    "bookTicker", "fundingRate", "indexPriceKlines",
    "markPriceKlines", "premiumIndexKlines"
  ]

  const TimePeriods: seq<string> := ["daily", "monthly"]

  /** Earliest archive date per trading type (a flat table). */
  const StartDateMap: map<string, string> := map[
    "spot" := "2017-08-15",
    "um" := "2020-01-01",
    "cm" := "2020-08-01"
  ]

  const AggTradesColumns: seq<string> := [
    "agg_id", "price", "quantity", "first_trade_id", "last_trade_id",
    "timestamp", "is_buyer_maker", "is_best_match"
  ]

  const TradesColumns: seq<string> := [
    "id", "price", "quantity", "quote_quantity", "timestamp",
    "is_buyer_maker", "is_best_match"
  ]

  const KlineColumns: seq<string> := [
    "open_time", "open", "high", "low", "close", "volume", "close_time",
    "quote_volume", "count", "taker_buy_volume", "taker_buy_quote_volume",
    "ignore"
  ]

  const BookTickerColumns: seq<string> := [
    "update_id", "best_bid_price", "best_bid_qty", "best_ask_price",
    "best_ask_qty", "transaction_time", "event_time"
  ]

  const FundingRateColumns: seq<string> := [
    "calc_time", "funding_interval_hours", "last_funding_rate"
  ]

  const SpotColumnsMap: map<string, seq<string>> := map[
    "aggTrades" := AggTradesColumns,
    "trades" := TradesColumns,
    "klines" := KlineColumns
  ]

  /** Futures trade files have no `is_best_match` column. */
  const FuturesColumnsMap: map<string, seq<string>> := map[
    "aggTrades" := AggTradesColumns[..|AggTradesColumns| - 1],
    "trades" := TradesColumns[..|TradesColumns| - 1],
    "klines" := KlineColumns,
    "bookTicker" := BookTickerColumns,
    "fundingRate" := FundingRateColumns,
    "indexPriceKlines" := KlineColumns,
    "markPriceKlines" := KlineColumns,
    "premiumIndexKlines" := KlineColumns
  ]

  /** `"klines" in t.lower()`: the test the code uses for kline-like data types. */
  predicate IsKlines(t: string) {
    Contains(Lower(t), "klines")
  }

  // ---------------------------------------------------------------------------
  // Properties of the tables

  lemma DataTypeTablesDisjoint()
    ensures forall t :: t in MarketDataTypes ==> t !in FuturesDataTypes
    ensures TimePeriods == ["daily", "monthly"]
  {
  }

  lemma IntervalsAreDistinct()
    ensures |Intervals| == 16 && "1s" in Intervals
    ensures forall i, j :: 0 <= i < j < |Intervals| ==> Intervals[i] != Intervals[j]
  {
  }

  lemma FuturesTradeColumnsDropBestMatch()
    ensures FuturesColumnsMap["aggTrades"] + ["is_best_match"] == SpotColumnsMap["aggTrades"]
    ensures FuturesColumnsMap["trades"] + ["is_best_match"] == SpotColumnsMap["trades"]
  {
  }

  lemma ColumnMapKeys()
    ensures SpotColumnsMap.Keys == set t | t in MarketDataTypes
    ensures FuturesColumnsMap.Keys == (set t | t in MarketDataTypes) + (set t | t in FuturesDataTypes)
    ensures forall t :: t in ["klines", "indexPriceKlines", "markPriceKlines", "premiumIndexKlines"] ==> FuturesColumnsMap[t] == KlineColumns
    ensures SpotColumnsMap["klines"] == KlineColumns
  {
  }
}
