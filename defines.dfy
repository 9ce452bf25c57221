/** Market-data value types, instrument-id conversions and the bar table of
    the backtester's common package.  Every type here is a Go value type
    (copied on assignment), so each becomes a datatype. */
module Defines {
  import opened Wrappers
  import opened Text

  // ---------------------------------------------------------------------
  // Exchange names and instrument types (both Go string types).

  const EX_OKX: string := "okx"
  const EX_BINANCE: string := "binance"

  const INST_SPOT: string := "spot"
  const INST_UM_SWAP: string := "umswap"
  const INST_CM_SWAP: string := "cmswap"

  /** The instrument-type names the code knows. */
  predicate IsKnownInstType(t: string) {
    t == INST_SPOT || t == INST_UM_SWAP || t == INST_CM_SWAP
  }

  /** OKX's instType parameter for a common instrument type. */
  function CommonInstType2Okx(st: string): (r: (string, bool))
    ensures r.1 <==> IsKnownInstType(st)
    ensures r.1 ==> r.0 == (if st == INST_SPOT then "SPOT" else "SWAP")
    ensures !r.1 ==> r.0 == ""
  {
    if st == INST_SPOT then ("SPOT", true)
    else if st == INST_CM_SWAP then ("SWAP", true)
    else if st == INST_UM_SWAP then ("SWAP", true)
    else ("", false)
  }

  /** Exchange symbol to common instrument id (`btc_usdt`, `btc_usdt_swap`,
      `btc_usd_swap`).  OKX ids are lower-cased with `-` turned into `_`;
      Binance spot accepts only USDT pairs; anything else is refused. */
  function ToCommonInstId(ex: string, instType: string, instId: string): (r: (string, bool))
    ensures r.1 <==>
      ex == EX_OKX ||
      (ex == EX_BINANCE &&
       ((instType == INST_SPOT && HasSuffix(instId, "USDT")) ||
        instType == INST_UM_SWAP || instType == INST_CM_SWAP))
    ensures !r.1 ==> r.0 == ""
  {
    if ex == EX_OKX then
      (ToLower(ReplaceAll(instId, "-", "_")), true)
    else if ex == EX_BINANCE then
      if instType == INST_SPOT then
        if HasSuffix(instId, "USDT") then
          (ToLower(ReplaceAll(instId, "USDT", "")) + "_usdt", true)
        else ("", false)
      else if instType == INST_UM_SWAP then
        (ToLower(ReplaceAll(instId, "USDT", "")) + "_usdt_swap", true)
      else if instType == INST_CM_SWAP then
        (ToLower(ReplaceAll(instId, "USD_PERP", "_usd_swap")), true)
      else ("", false)
    else ("", false)
  }

  /** Common instrument id back to the exchange's symbol. */
  function ToExchangeInstId(ex: string, instId: string): (r: (string, bool))
    ensures r.1 <==>
      ex == EX_OKX ||
      (ex == EX_BINANCE &&
       (HasSuffix(instId, "_usdt") || HasSuffix(instId, "_usdt_swap") || HasSuffix(instId, "_usd_swap")))
    ensures !r.1 ==> r.0 == ""
  {
    if ex == EX_OKX then
      (ToUpper(ReplaceAll(instId, "_", "-")), true)
    else if ex == EX_BINANCE then
      if HasSuffix(instId, "_usdt") then
        (ToUpper(ReplaceAll(instId, "_", "")), true)
      else if HasSuffix(instId, "_usdt_swap") then
        (ToUpper(ReplaceAll(instId, "_usdt_swap", "USDT")), true)
      else if HasSuffix(instId, "_usd_swap") then
        (ToUpper(ReplaceAll(instId, "_usd_swap", "USD_PERP")), true)
      else ("", false)
    else ("", false)
  }

  /** A USDT-margined swap id never also ends like a coin-margined one. */
  lemma UsdtSwapIsNotCoinSwap(instId: string)
    ensures !(HasSuffix(instId, "_usdt_swap") && HasSuffix(instId, "_usd_swap"))
  {
    if HasSuffix(instId, "_usdt_swap") {
      var n := |instId|;
      assert instId[n - 9] == "_usdt_swap"[1];
    }
  }

  /** Instrument type of a common id, read off its suffix. */
  function GetInstType(instId: string): (r: string)
    ensures IsKnownInstType(r)
    ensures r == INST_CM_SWAP <==> HasSuffix(instId, "_usd_swap")
    ensures r == INST_UM_SWAP <==> HasSuffix(instId, "_usdt_swap")
    ensures r == INST_SPOT <==> !HasSuffix(instId, "_usd_swap") && !HasSuffix(instId, "_usdt_swap")
  {
    UsdtSwapIsNotCoinSwap(instId);
    if HasSuffix(instId, "_usd_swap") then INST_CM_SWAP
    else if HasSuffix(instId, "_usdt_swap") then INST_UM_SWAP
    else INST_SPOT
  }

  predicate IsUsdtContract(instId: string) {
    HasSuffix(instId, "_usdt_swap")
  }

  /** Margin currency of a contract: `usdt` for USDT-margined swaps, the
      base coin (the text before the first `_`) otherwise. */
  function InstId2MarginCcy(instId: string): (r: string)
    ensures IsUsdtContract(instId) ==> r == "usdt"
    ensures !IsUsdtContract(instId) ==>
      IsPrefix(r, instId) && '_' !in r && (|r| == |instId| || instId[|r|] == '_')
  {
    if IsUsdtContract(instId) then "usdt" else FirstField(instId, '_')
  }

  /** Base and quote currency of a spot id: the first two `_`-separated
      fields.  An id without `_` makes the Go code index past the end of the
      split result. */
  function InstId2Ccys(instId: string): (r: Result<(string, string)>)
    ensures r.Ok? <==> '_' in instId
    ensures r.Fail? ==> r.error == IndexOutOfRange
    ensures r.Ok? ==>
      var (base, quote) := r.value;
      IsPrefix(base + "_" + quote, instId) && '_' !in base && '_' !in quote &&
      (|base| + 1 + |quote| == |instId| || instId[|base| + 1 + |quote|] == '_')
  {
    var k := IndexOf(instId, '_');
    if k == |instId| then Fail(IndexOutOfRange)
    else
      var rest := instId[k + 1..];
      var quote := FirstField(rest, '_');
      assert instId[..k] + "_" + quote == instId[..k + 1 + |quote|];
      Ok((instId[..k], quote))
  }

  // ---------------------------------------------------------------------
  // Cross-sectional data.

  /** The values of several instruments at one instant. */
  datatype SectionData = SectionData(time: int, instIds: seq<string>, values: seq<real>) {
    predicate Valid() {
      |instIds| == |values|
    }
  }

  /** A time series of sections that all share one instrument list. */
  datatype SectionSequence = SectionSequence(instIds: seq<string>, data: seq<SectionData>) {
    predicate Valid() {
      SectionsValid(instIds, data)
    }
  }

  /** The check loop of `SectionSequence.Valid`, section by section. */
  function SectionsValid(instIds: seq<string>, data: seq<SectionData>): (r: bool)
    ensures r <==> forall i :: 0 <= i < |data| ==> data[i].Valid() && data[i].instIds == instIds
  {
    if |data| == 0 then true
    else if !data[0].Valid() then false
    else if data[0].instIds != instIds then false
    else SectionsValid(instIds, data[1..])
  }

  // ---------------------------------------------------------------------
  // Kline bars.

  const BAR_INVALID: string := ""

  const INTERVAL_TO_BAR: map<int, string> :=
    map[60 := "1m", 300 := "5m", 900 := "15m", 1800 := "30m", 3600 := "1h",
        7200 := "2h", 14400 := "4h", 28800 := "8h", 86400 := "1d"]

  const BAR_TO_INTERVAL: map<string, int> :=
    map["1m" := 60, "5m" := 300, "15m" := 900, "30m" := 1800, "1h" := 3600,
        "2h" := 7200, "4h" := 14400, "8h" := 28800, "1d" := 86400]

  /** Bar name of an interval in seconds. */
  function Interval2Bar(interval: int): (r: (string, bool))
    ensures r.1 <==> interval in {60, 300, 900, 1800, 3600, 7200, 14400, 28800, 86400}
    ensures r.1 ==> r.0 != BAR_INVALID
    ensures !r.1 ==> r.0 == BAR_INVALID
  {
    if interval in INTERVAL_TO_BAR then (INTERVAL_TO_BAR[interval], true) else (BAR_INVALID, false)
  }

  /** Interval in seconds of a bar name. */
  function Bar2Interval(bar: string): (r: (int, bool))
    ensures r.1 <==> bar in {"1m", "5m", "15m", "30m", "1h", "2h", "4h", "8h", "1d"}
    ensures r.1 ==> r.0 > 0 && r.0 % 60 == 0
    ensures !r.1 ==> r.0 == 0
  {
    if bar in BAR_TO_INTERVAL then (BAR_TO_INTERVAL[bar], true) else (0, false)
  }

  // ---------------------------------------------------------------------
  // Market records.  Times are Unix milliseconds.

  const MAX_INT32: real := 2147483647.0

  datatype Ticker = Ticker(instrumentId: string, time: int, price: real, buy1: real, sell1: real)

  /** One order-book level. */
  datatype DepthUnit = DepthUnit(price: real, amount: real, orderCount: int)

  /** An order book: asks and bids best-first, with the derived best prices
      and mid price that `parse` fills in. */
  datatype Depth = Depth(time: int, asks: seq<DepthUnit>, bids: seq<DepthUnit>,
                         sell1: real, buy1: real, mid: real)

  datatype TradeTag = Normal | Liquidation

  datatype Trade = Trade(time: int, price: real, size: real, side: char, tag: TradeTag)

  datatype KlineUnit = KlineUnit(time: int, openPrice: real, closePrice: real,
                                 highPrice: real, lowPrice: real, volume: real)

  /** `Depth.parse`: when both sides have a level, derive the best prices and
      the mid price and report success; otherwise leave the book unchanged. */
  function Parse(d: Depth): (r: (bool, Depth))
    ensures r.0 <==> |d.bids| > 0 && |d.asks| > 0
    ensures !r.0 ==> r.1 == d
    ensures r.0 ==>
      r.1.time == d.time && r.1.asks == d.asks && r.1.bids == d.bids &&
      r.1.buy1 == d.bids[0].price && r.1.sell1 == d.asks[0].price
    ensures r.0 ==> r.1.mid - r.1.buy1 == r.1.sell1 - r.1.mid
  {
    if |d.bids| > 0 && |d.asks| > 0 then
      var buy1 := d.bids[0].price;
      var sell1 := d.asks[0].price;
      (true, d.(buy1 := buy1, sell1 := sell1, mid := (buy1 + sell1) / 2.0))
    else (false, d)
  }

  /** A one-level book standing in for real depth when only tickers are
      replayed: the best ask and best bid, each with an unlimited amount. */
  function NewDepthFromTicker(t: Ticker): (d: Depth)
    ensures d.time == t.time
    ensures d.asks == [DepthUnit(t.sell1, MAX_INT32, 1)]
    ensures d.bids == [DepthUnit(t.buy1, MAX_INT32, 1)]
    ensures d.sell1 == t.sell1 && d.buy1 == t.buy1
    ensures d.mid - t.buy1 == t.sell1 - d.mid
    ensures Parse(d) == (true, d)
  {
    var raw := Depth(t.time, [DepthUnit(t.sell1, MAX_INT32, 1)], [DepthUnit(t.buy1, MAX_INT32, 1)], 0.0, 0.0, 0.0);
    Parse(raw).1
  }

  /** Parsing a book twice changes nothing the second time. */
  lemma ParseIdempotent(d: Depth)
    ensures Parse(Parse(d).1) == Parse(d)
  {
  }
}
