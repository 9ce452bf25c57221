/** The executor's state as a value and every operation on it as a function:
    spot and contract fills, the latest-price cache, currency conversion and
    net asset value, the per-event dispatch of the replay loop, and the
    taker signal of the strategy context.  The executor object in
    `Executors` is proved to follow these functions. */
module ExecutorSpec {
  import opened Wrappers
  import opened Defines
  import opened OrderBook
  import opened ContractPositions
  import opened MarketInfo

  /** The four fee rates of the executor's configuration. */
  datatype FeeConfig = FeeConfig(spotMaker: real, spotTaker: real, contractMaker: real, contractTaker: real)

  /** A strategy callback, with the instrument and the record it is given. */
  datatype Callback =
    | OnTicker(instId: string, ticker: Ticker)
    | OnDepth(instId: string, depth: Depth)
    | OnTrade(instId: string, trade: Trade)
    | OnLiquidation(instId: string, trade: Trade)
    | OnKlineUnit(instId: string, kline: KlineUnit)

  /** One callback as the strategy sees it: the executor's time, latest
      prices and books at the moment of the call. */
  datatype Call = Call(time: int, prices: map<string, real>, depths: map<string, Depth>, callback: Callback)

  /** Everything the executor changes while replaying, with the contract
      ledgers as values and the callbacks made so far. */
  datatype ExecState = ExecState(
    time: int,
    initBalance: map<string, real>,
    balance: map<string, real>,
    unrealizedPnl: map<string, real>,
    ledgers: map<string, LedgerState>,
    depthOfInsts: map<string, Depth>,
    priceOfInsts: map<string, real>,
    trace: seq<Call>)

  /** A Go map read: a missing key reads as zero. */
  function Get(m: map<string, real>, k: string): (r: real)
    ensures k in m ==> r == m[k]
    ensures k !in m ==> r == 0.0
  {
    if k in m then m[k] else 0.0
  }

  // ---------------------------------------------------------------------
  // Spot fills.

  function SpotRate(fees: FeeConfig, taker: bool): real {
    if taker then fees.spotTaker else fees.spotMaker
  }

  /** `spotBuy`: the base currency grows by the amount less the fee (charged
      in base), the quote currency pays price times amount.  The two map
      writes happen in this order, so a pair whose base and quote coincide
      sees both. */
  function SpotBuy(balance: map<string, real>, fees: FeeConfig, base: string, quote: string,
                   price: real, amount: real, taker: bool): (r: map<string, real>)
    ensures r.Keys == balance.Keys + {base, quote}
    ensures forall k :: k in balance && k != base && k != quote ==> r[k] == balance[k]
    ensures base != quote ==> r[base] == Get(balance, base) + amount - amount * SpotRate(fees, taker)
    ensures base != quote ==> r[quote] == Get(balance, quote) - price * amount
    ensures base == quote ==> r[base] == Get(balance, base) + amount - amount * SpotRate(fees, taker) - price * amount
  {
    var quoteAmount := Mul(price, amount);
    var fee := Mul(amount, SpotRate(fees, taker));
    var b1 := balance[base := Get(balance, base) + (amount - fee)];
    b1[quote := Get(b1, quote) - quoteAmount]
  }

  /** `spotSell`: the base currency pays the amount, the quote currency
      receives price times amount less the fee (charged in quote). */
  function SpotSell(balance: map<string, real>, fees: FeeConfig, base: string, quote: string,
                    price: real, amount: real, taker: bool): (r: map<string, real>)
    ensures r.Keys == balance.Keys + {base, quote}
    ensures forall k :: k in balance && k != base && k != quote ==> r[k] == balance[k]
    ensures base != quote ==> r[base] == Get(balance, base) - amount
    ensures base != quote ==> r[quote] == Get(balance, quote) + Mul(price, amount) - Mul(Mul(price, amount), SpotRate(fees, taker))
    ensures base == quote ==> r[base] == Get(balance, base) - amount + Mul(price, amount) - Mul(Mul(price, amount), SpotRate(fees, taker))
  {
    var quoteAmount := Mul(price, amount);
    var fee := Mul(quoteAmount, SpotRate(fees, taker));
    var b1 := balance[base := Get(balance, base) - amount];
    b1[quote := Get(b1, quote) + (quoteAmount - fee)]
  }

  // ---------------------------------------------------------------------
  // Contract fills and prices.

  /** The ledger `contractDeal` creates for an instrument it has not seen. */
  function LedgerConfigFor(fees: FeeConfig, instId: string): LedgerConfig {
    LedgerConfig(IsUsdtContract(instId), InstId2MarginCcy(instId), fees.contractMaker, fees.contractTaker)
  }

  /** The ledger of an instrument, created on first use. */
  function LedgerFor(st: ExecState, fees: FeeConfig, instId: string): LedgerState {
    if instId in st.ledgers then st.ledgers[instId] else Fresh(LedgerConfigFor(fees, instId))
  }

  /** `contractDeal`: record the fill on the instrument's ledger and move the
      margin currency's balance by profit minus fee. */
  function ContractDeal(st: ExecState, fees: FeeConfig, instId: string, price: real, amount: real, taker: bool): (r: Result<ExecState>)
    ensures r.Ok? <==> DealSpec(LedgerFor(st, fees, instId), price, amount, taker, st.time).Ok?
  {
    var ledger := LedgerFor(st, fees, instId);
    var out :- DealSpec(ledger, price, amount, taker, st.time);
    var ccy := ledger.cfg.marginCcy;
    Ok(st.(ledgers := st.ledgers[instId := out.state],
           balance := st.balance[ccy := Get(st.balance, ccy) + out.profit - out.fee]))
  }

  /** A successful contract fill replaces the instrument's ledger by the
      fill's outcome and moves only the margin currency's balance. */
  lemma ContractDealValue(st: ExecState, fees: FeeConfig, instId: string, price: real, amount: real, taker: bool)
    ensures var d := DealSpec(LedgerFor(st, fees, instId), price, amount, taker, st.time);
      d.Fail? ==> ContractDeal(st, fees, instId, price, amount, taker) == Fail(d.error)
    ensures var d := DealSpec(LedgerFor(st, fees, instId), price, amount, taker, st.time);
      var ccy := LedgerFor(st, fees, instId).cfg.marginCcy;
      d.Ok? ==>
        ContractDeal(st, fees, instId, price, amount, taker) ==
        Ok(st.(ledgers := st.ledgers[instId := d.value.state],
               balance := st.balance[ccy := Get(st.balance, ccy) + d.value.profit - d.value.fee]))
  {
  }

  /** `onLatestPrice`: store the price; when the instrument has a ledger,
      mark it to market and overwrite the unrealized profit of its margin
      currency with that ledger's. */
  function OnLatestPrice(st: ExecState, instId: string, price: real): (r: Result<ExecState>)
    ensures r.Ok? <==> instId !in st.ledgers || UpdateSpec(st.ledgers[instId], price).Ok?
    ensures r.Ok? ==> r.value.time == st.time && r.value.balance == st.balance && r.value.initBalance == st.initBalance
    ensures r.Ok? ==> r.value.priceOfInsts == st.priceOfInsts[instId := price]
  {
    var st1 := st.(priceOfInsts := st.priceOfInsts[instId := price]);
    if instId in st.ledgers then
      var u :- UpdateSpec(st.ledgers[instId], price);
      Ok(st1.(ledgers := st1.ledgers[instId := u],
              unrealizedPnl := st1.unrealizedPnl[u.cfg.marginCcy := u.unrealizedProfit]))
    else Ok(st1)
  }

  /** The price key of a currency pair. */
  function PairId(base: string, quote: string): string {
    base + "_" + quote
  }

  /** `exchangeToCcy`: convert an amount between currencies through the
      latest price of either pair; 0 when neither pair has a price.  The
      inverse pair divides, and a zero price there panics. */
  function ExchangeToCcy(prices: map<string, real>, src: string, dst: string, amount: real): (r: Result<real>)
    ensures r.Fail? <==> src != dst && PairId(src, dst) !in prices && PairId(dst, src) in prices && prices[PairId(dst, src)] == 0.0
    ensures r.Fail? ==> r.error == DivisionByZero
    ensures src == dst ==> r == Ok(amount)
    ensures src != dst && PairId(src, dst) in prices ==> r == Ok(amount * prices[PairId(src, dst)])
    ensures r.Ok? && src != dst && PairId(src, dst) !in prices && PairId(dst, src) in prices ==>
      r.value * prices[PairId(dst, src)] == amount
    ensures src != dst && PairId(src, dst) !in prices && PairId(dst, src) !in prices ==> r == Ok(0.0)
  {
    if src == dst then Ok(amount)
    else if PairId(src, dst) in prices then Ok(Mul(amount, prices[PairId(src, dst)]))
    else if PairId(dst, src) in prices then Div(amount, prices[PairId(dst, src)])
    else Ok(0.0)
  }

  // ---------------------------------------------------------------------
  // Net asset value.

  /** The converted value of one entry of a balance map, 0 when the
      conversion fails. */
  function Converted(prices: map<string, real>, m: map<string, real>, k: string, dst: string): real
    requires k in m
  {
    var c := ExchangeToCcy(prices, k, dst, m[k]);
    if c.Ok? then c.value else 0.0
  }

  predicate Converts(prices: map<string, real>, m: map<string, real>, k: string, dst: string)
    requires k in m
  {
    ExchangeToCcy(prices, k, dst, m[k]).Ok?
  }

  /** The sum of the converted entries for a set of keys, in no particular
      order. */
  ghost function ConvertedSum(prices: map<string, real>, m: map<string, real>, keys: set<string>, dst: string): real
    requires keys <= m.Keys
  {
    if keys == {} then 0.0
    else
      var k :| k in keys;
      Converted(prices, m, k, dst) + ConvertedSum(prices, m, keys - {k}, dst)
  }

  /** The sum does not depend on which key is taken first. */
  lemma {:induction false} ConvertedSumRemove(prices: map<string, real>, m: map<string, real>, keys: set<string>, dst: string, k: string)
    requires keys <= m.Keys && k in keys
    ensures ConvertedSum(prices, m, keys, dst) == Converted(prices, m, k, dst) + ConvertedSum(prices, m, keys - {k}, dst)
    decreases |keys|
  {
    var j :| j in keys && ConvertedSum(prices, m, keys, dst) == Converted(prices, m, j, dst) + ConvertedSum(prices, m, keys - {j}, dst);
    if j != k {
      ConvertedSumRemove(prices, m, keys - {j}, dst, k);
      ConvertedSumRemove(prices, m, keys - {k}, dst, j);
      assert keys - {j} - {k} == keys - {k} - {j};
    }
  }

  /** `nav` measured against the initial holding of `baseCcy`: 1 when that
      holding was 0; otherwise every balance and every unrealized profit
      converted to `baseCcy`, summed and divided by the initial holding.
      The Go code takes the first key of `initBalance` in map order, which
      Go leaves unspecified, so the baseline is a parameter here. */
  ghost function NavFor(st: ExecState, baseCcy: string): (r: Result<real>)
    requires baseCcy in st.initBalance
    ensures st.initBalance[baseCcy] == 0.0 ==> r == Ok(1.0)
  {
    var baseBal := st.initBalance[baseCcy];
    if baseBal == 0.0 then Ok(1.0)
    else if exists k :: k in st.balance && !Converts(st.priceOfInsts, st.balance, k, baseCcy) then Fail(DivisionByZero)
    else if exists k :: k in st.unrealizedPnl && !Converts(st.priceOfInsts, st.unrealizedPnl, k, baseCcy) then Fail(DivisionByZero)
    else
      Ok((ConvertedSum(st.priceOfInsts, st.balance, st.balance.Keys, baseCcy) +
          ConvertedSum(st.priceOfInsts, st.unrealizedPnl, st.unrealizedPnl.Keys, baseCcy)) / baseBal)
  }

  // ---------------------------------------------------------------------
  // The replay loop.

  /** The strategy is called with the executor as it stands. */
  function Notify(st: ExecState, cb: Callback): ExecState {
    st.(trace := st.trace + [Call(st.time, st.priceOfInsts, st.depthOfInsts, cb)])
  }

  function NotifyAll(st: ExecState, cbs: seq<Callback>): ExecState {
    st.(trace := st.trace + seq(|cbs|, i requires 0 <= i < |cbs| => Call(st.time, st.priceOfInsts, st.depthOfInsts, cbs[i])))
  }

  /** Notifying none, one or two callbacks in turn. */
  lemma NotifyAllShort(st: ExecState, cbs: seq<Callback>)
    requires |cbs| <= 2
    ensures |cbs| == 0 ==> NotifyAll(st, cbs) == st
    ensures |cbs| == 1 ==> NotifyAll(st, cbs) == Notify(st, cbs[0])
    ensures |cbs| == 2 ==> NotifyAll(st, cbs) == Notify(Notify(st, cbs[0]), cbs[1])
  {
    if |cbs| == 0 {
      assert st.trace + [] == st.trace;
    }
    if |cbs| == 2 {
      var st1 := Notify(st, cbs[0]);
      assert st1.time == st.time && st1.priceOfInsts == st.priceOfInsts && st1.depthOfInsts == st.depthOfInsts;
    }
  }

  /** The callbacks a trade event makes, in order, as the two trade blocks
      of the dispatch are written: the first by tag, the second for every
      trade once liquidations are replayed. */
  function TradeCallbacks(f: Flags, instId: string, v: Trade): (r: seq<Callback>)
    ensures |r| <= 2
  {
    (if f.useTrades || f.useLiquidations then
       (if v.tag == Normal then [OnTrade(instId, v)] else [OnLiquidation(instId, v)])
     else []) +
    (if f.useLiquidations then [OnLiquidation(instId, v)] else [])
  }

  /** A ticker event: price update when tickers are the price source, a
      one-level book when depths are not replayed, then the callback. */
  function TickerStep(st: ExecState, f: Flags, instId: string, v: Ticker): (r: Result<ExecState>)
    ensures r.Ok? ==> r.value.time == st.time && r.value.balance == st.balance && r.value.initBalance == st.initBalance
  {
    if !f.useTicker then Ok(st)
    else
      var st1 :- if f.pxbyTicker then OnLatestPrice(st, instId, v.price) else Ok(st);
      var st2 := if !f.useDepth then st1.(depthOfInsts := st1.depthOfInsts[instId := NewDepthFromTicker(v)]) else st1;
      Ok(Notify(st2, OnTicker(instId, v)))
  }

  /** A depth event: the book is stored, then the price update when depths
      are the price source, then the callback. */
  function DepthStep(st: ExecState, f: Flags, instId: string, v: Depth): (r: Result<ExecState>)
    ensures r.Ok? ==> r.value.time == st.time && r.value.balance == st.balance && r.value.initBalance == st.initBalance
  {
    if !f.useDepth then Ok(st)
    else
      var st1 := st.(depthOfInsts := st.depthOfInsts[instId := v]);
      var st2 :- if f.pxbyDepth then OnLatestPrice(st1, instId, v.mid) else Ok(st1);
      Ok(Notify(st2, OnDepth(instId, v)))
  }

  /** A trade event: a normal trade updates the price when trades are the
      price source, then the trade callbacks run. */
  function TradeStep(st: ExecState, f: Flags, instId: string, v: Trade): (r: Result<ExecState>)
    ensures r.Ok? ==> r.value.time == st.time && r.value.balance == st.balance && r.value.initBalance == st.initBalance
  {
    var st1 :- if (f.useTrades || f.useLiquidations) && v.tag == Normal && f.pxbyTrades
               then OnLatestPrice(st, instId, v.price) else Ok(st);
    Ok(NotifyAll(st1, TradeCallbacks(f, instId, v)))
  }

  /** A kline event: price update from the close when klines are the price
      source, then the callback. */
  function KlineStep(st: ExecState, f: Flags, instId: string, v: KlineUnit): (r: Result<ExecState>)
    ensures r.Ok? ==> r.value.time == st.time && r.value.balance == st.balance && r.value.initBalance == st.initBalance
  {
    if !f.useKline then Ok(st)
    else
      var st1 :- if f.pxbyKline then OnLatestPrice(st, instId, v.closePrice) else Ok(st);
      Ok(Notify(st1, OnKlineUnit(instId, v)))
  }

  /** One iteration of `Run`: set the time, resolve the instrument, then act
      on the event by its kind.  A price update that fails stops the
      replay. */
  function Step(st: ExecState, f: Flags, instIds: seq<string>, u: MarketInfoUnit): (r: Result<ExecState>)
    ensures r.Ok? ==> r.value.time == u.time
    ensures !(0 <= u.instIdIndex < |instIds|) ==> r == Fail(IndexOutOfRange)
  {
    if !(0 <= u.instIdIndex < |instIds|) then Fail(IndexOutOfRange)
    else
      EventStep(st.(time := u.time), f, instIds[u.instIdIndex], u.data)
  }

  /** An event of the instrument, by its kind. */
  function EventStep(st: ExecState, f: Flags, instId: string, d: MarketData): (r: Result<ExecState>)
    ensures r.Ok? ==> r.value.time == st.time && r.value.balance == st.balance && r.value.initBalance == st.initBalance
  {
    match d
    case TickerData(v) => TickerStep(st, f, instId, v)
    case DepthData(v) => DepthStep(st, f, instId, v)
    case TradeData(v) => TradeStep(st, f, instId, v)
    case KlineData(v) => KlineStep(st, f, instId, v)
  }

  /** The replay of a prefix of the feed, event by event. */
  function Replay(st: ExecState, f: Flags, instIds: seq<string>, units: seq<MarketInfoUnit>): Result<ExecState> {
    if |units| == 0 then Ok(st)
    else
      var st1 :- Replay(st, f, instIds, units[..|units| - 1]);
      Step(st1, f, instIds, units[|units| - 1])
  }

  /** Replaying one more event is one more step from where the prefix
      left the accounts. */
  lemma ReplayExtend(st: ExecState, f: Flags, instIds: seq<string>, units: seq<MarketInfoUnit>, i: nat, mid: ExecState)
    requires i < |units| && Replay(st, f, instIds, units[..i]) == Ok(mid)
    ensures Replay(st, f, instIds, units[..i + 1]) == Step(mid, f, instIds, units[i])
  {
    assert units[..i + 1][..i] == units[..i];
  }

  /** A failure ends the replay: the events after it do not matter. */
  lemma {:induction false} ReplayFailurePersists(st: ExecState, f: Flags, instIds: seq<string>, units: seq<MarketInfoUnit>, n: nat)
    requires n <= |units| && Replay(st, f, instIds, units[..n]).Fail?
    ensures Replay(st, f, instIds, units) == Replay(st, f, instIds, units[..n])
    decreases |units|
  {
    if n < |units| {
      var init := units[..|units| - 1];
      assert init[..n] == units[..n];
      ReplayFailurePersists(st, f, instIds, init, n);
    } else {
      assert units[..n] == units;
    }
  }

  /** `Run`: remember the balances as the initial ones, then replay. */
  function RunSpec(st: ExecState, f: Flags, instIds: seq<string>, units: seq<MarketInfoUnit>): Result<ExecState> {
    Replay(st.(initBalance := st.balance), f, instIds, units)
  }

  // ---------------------------------------------------------------------
  // The taker signal.

  /** The fill a taker order gets: with a book for the instrument the amount
      is first cut to what the book can fill at the limit price, then price
      and amount are replaced by the book walk's estimate; without a book
      both pass through. */
  function TakerFill(st: ExecState, instId: string, price: real, amount: real, isSell: bool): (r: (real, real))
    ensures instId !in st.depthOfInsts ==> r == (price, amount)
  {
    if instId in st.depthOfInsts then
      var v := st.depthOfInsts[instId];
      var maxAmount := FillableAmount(Side(v, isSell), price, isSell);
      var clamped := if maxAmount < amount then maxAmount else amount;
      AvgPrice(Side(v, isSell), clamped)
    else (price, amount)
  }

  /** `SignalTaker`: a spot instrument trades its base against its quote
      currency, a contract instrument records a fill negated for a sell;
      both as taker. */
  function SignalTaker(st: ExecState, fees: FeeConfig, instId: string, price: real, amount: real, isSell: bool): (r: Result<ExecState>)
    ensures GetInstType(instId) == INST_SPOT ==> (r.Ok? <==> '_' in instId)
    ensures GetInstType(instId) == INST_SPOT && r.Fail? ==> r.error == IndexOutOfRange
    ensures GetInstType(instId) == INST_SPOT && r.Ok? ==>
      var (base, quote) := InstId2Ccys(instId).value;
      var (px, amt) := TakerFill(st, instId, price, amount, isSell);
      r.value == st.(balance := if isSell then SpotSell(st.balance, fees, base, quote, px, amt, true)
                                else SpotBuy(st.balance, fees, base, quote, px, amt, true))
    ensures GetInstType(instId) != INST_SPOT ==>
      var (px, amt) := TakerFill(st, instId, price, amount, isSell);
      r == ContractDeal(st, fees, instId, px, if isSell then -amt else amt, true) &&
      (r.Ok? <==> DealSpec(LedgerFor(st, fees, instId), px, if isSell then -amt else amt, true, st.time).Ok?)
  {
    var fill := TakerFill(st, instId, price, amount, isSell);
    if GetInstType(instId) == INST_SPOT then
      var ccys :- InstId2Ccys(instId);
      if isSell then Ok(st.(balance := SpotSell(st.balance, fees, ccys.0, ccys.1, fill.0, fill.1, true)))
      else Ok(st.(balance := SpotBuy(st.balance, fees, ccys.0, ccys.1, fill.0, fill.1, true)))
    else
      ContractDeal(st, fees, instId, fill.0, if isSell then -fill.1 else fill.1, true)
  }
}
