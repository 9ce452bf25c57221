/** What the executor's operations promise beyond their own contracts: how
    fills move balances and ledgers, what a price update overwrites, what
    the net asset value measures, what a replay keeps and in which order
    and with which view the strategy is called. */
module ExecutorProperties {
  import opened Wrappers
  import opened Defines
  import opened OrderBook
  import opened ContractPositions
  import opened ContractPositionProperties
  import opened MarketInfo
  import opened ExecutorSpec

  // ---------------------------------------------------------------------
  // Spot fills.

  /** Without fees, selling back at the same price what was just bought
      restores both balances exactly. */
  lemma SpotRoundTrip(balance: map<string, real>, fees: FeeConfig, base: string, quote: string, price: real, amount: real)
    requires fees.spotTaker == 0.0 && base != quote && base in balance && quote in balance
    ensures SpotSell(SpotBuy(balance, fees, base, quote, price, amount, true), fees, base, quote, price, amount, true) == balance
  {
    var bought := SpotBuy(balance, fees, base, quote, price, amount, true);
    var sold := SpotSell(bought, fees, base, quote, price, amount, true);
    assert sold.Keys == balance.Keys;
    forall k | k in balance
      ensures sold[k] == balance[k]
    {
      if k == base || k == quote {
        assert Mul(Mul(price, amount), 0.0) == 0.0;
      }
    }
  }

  // ---------------------------------------------------------------------
  // Contract fills.

  /** Every ledger the executor holds satisfies the ledger invariant. */
  predicate LedgersValid(st: ExecState) {
    forall k :: k in st.ledgers ==> LedgerValid(st.ledgers[k])
  }

  /** As written, the first fill of an instrument fails: the ledger created
      for it is flat with an open average of 0, and `Deal` divides by that
      average. */
  lemma FirstContractFillFails(st: ExecState, fees: FeeConfig, instId: string, price: real, amount: real, taker: bool)
    requires instId !in st.ledgers
    ensures ContractDeal(st, fees, instId, price, amount, taker) == Fail(DivisionByZero)
  {
    FreshIsValid(LedgerConfigFor(fees, instId));
    DealFromFlatFails(Fresh(LedgerConfigFor(fees, instId)), price, amount, taker, st.time);
  }

  /** A contract fill keeps every ledger valid: the one it records on (new
      or existing) by `DealPreservesValid`, the others untouched. */
  lemma ContractDealKeepsLedgersValid(st: ExecState, fees: FeeConfig, instId: string, price: real, amount: real, taker: bool)
    requires LedgersValid(st)
    requires ContractDeal(st, fees, instId, price, amount, taker).Ok?
    ensures LedgersValid(ContractDeal(st, fees, instId, price, amount, taker).value)
  {
    FreshIsValid(LedgerConfigFor(fees, instId));
    var ledger := LedgerFor(st, fees, instId);
    DealPreservesValid(AsWritten, ledger, price, amount, taker, st.time, MAX_SPLIT_DEPTH);
    ContractDealValue(st, fees, instId, price, amount, taker);
  }

  /** A contract fill moves the margin currency's balance by exactly the
      change of the ledger's total profit, keeps the ledger's configuration,
      and leaves every other currency alone. */
  lemma ContractDealBalanceTracksProfit(st: ExecState, fees: FeeConfig, instId: string, price: real, amount: real, taker: bool)
    requires ContractDeal(st, fees, instId, price, amount, taker).Ok?
    ensures var ledger := LedgerFor(st, fees, instId);
      var r := ContractDeal(st, fees, instId, price, amount, taker).value;
      var ccy := ledger.cfg.marginCcy;
      instId in r.ledgers && r.ledgers[instId].cfg == ledger.cfg &&
      ccy in r.balance &&
      r.balance[ccy] - Get(st.balance, ccy) == TotalProfit(r.ledgers[instId]) - TotalProfit(ledger) &&
      (forall k :: k in st.balance && k != ccy ==> r.balance[k] == st.balance[k])
  {
    ContractDealValue(st, fees, instId, price, amount, taker);
  }

  // ---------------------------------------------------------------------
  // Latest prices.

  /** A price update of an instrument with a ledger writes the ledger's new
      unrealized profit over its margin currency's entry, whatever other
      ledgers of that currency had put there. */
  lemma PriceUpdateOverwritesPnl(st: ExecState, instId: string, price: real)
    requires instId in st.ledgers && OnLatestPrice(st, instId, price).Ok?
    ensures var u := UpdateSpec(st.ledgers[instId], price).value;
      var r := OnLatestPrice(st, instId, price).value;
      r.ledgers == st.ledgers[instId := u] &&
      r.unrealizedPnl == st.unrealizedPnl[st.ledgers[instId].cfg.marginCcy := u.unrealizedProfit] &&
      r.depthOfInsts == st.depthOfInsts && r.trace == st.trace
  {
  }

  /** An instrument whose valid ledger is flat cannot be priced: `Update`
      divides by the zero open average. */
  lemma PriceUpdateOfFlatLedgerFails(st: ExecState, instId: string, price: real)
    requires instId in st.ledgers && LedgerValid(st.ledgers[instId]) && st.ledgers[instId].position == 0.0
    ensures OnLatestPrice(st, instId, price) == Fail(DivisionByZero)
  {
    UpdateFlatFails(st.ledgers[instId], price);
  }

  /** An instrument without a ledger is priced and nothing else changes. */
  lemma PriceUpdateWithoutLedger(st: ExecState, instId: string, price: real)
    requires instId !in st.ledgers
    ensures OnLatestPrice(st, instId, price) == Ok(st.(priceOfInsts := st.priceOfInsts[instId := price]))
  {
  }

  // ---------------------------------------------------------------------
  // Conversion and net asset value.

  /** Converting through a pair's price and back through the same price
      (the reverse pair having none) returns the original amount. */
  lemma ExchangeRoundTrip(prices: map<string, real>, src: string, dst: string, amount: real)
    requires src != dst && PairId(src, dst) in prices && PairId(dst, src) !in prices
    requires prices[PairId(src, dst)] != 0.0
    ensures ExchangeToCcy(prices, src, dst, amount).Ok?
    ensures ExchangeToCcy(prices, dst, src, ExchangeToCcy(prices, src, dst, amount).value) == Ok(amount)
  {
    var px := prices[PairId(src, dst)];
    var there := ExchangeToCcy(prices, src, dst, amount).value;
    assert there == amount * px;
    var back := ExchangeToCcy(prices, dst, src, there);
    assert back == Div(there, px);
    assert back.value * px == amount * px;
    CancelNonZero(back.value, amount, px);
  }

  lemma CancelNonZero(x: real, y: real, p: real)
    requires p != 0.0 && x * p == y * p
    ensures x == y
  {
    assert (x - y) * p == 0.0;
  }

  /** With a single currency the net asset value is the current holding of
      it plus its unrealized profit, over the initial holding. */
  lemma NavOfOneCurrency(st: ExecState, ccy: string, initial: real, held: real, pnl: real)
    requires st.initBalance == map[ccy := initial] && initial != 0.0
    requires st.balance == map[ccy := held] && st.unrealizedPnl == map[ccy := pnl]
    ensures NavFor(st, ccy) == Ok((held + pnl) / initial)
  {
    assert Converts(st.priceOfInsts, st.balance, ccy, ccy);
    assert Converts(st.priceOfInsts, st.unrealizedPnl, ccy, ccy);
    ConvertedSumRemove(st.priceOfInsts, st.balance, st.balance.Keys, ccy, ccy);
    ConvertedSumRemove(st.priceOfInsts, st.unrealizedPnl, st.unrealizedPnl.Keys, ccy, ccy);
    assert st.balance.Keys - {ccy} == {};
    assert st.unrealizedPnl.Keys - {ccy} == {};
  }

  // ---------------------------------------------------------------------
  // The replay.

  /** With the kind's flag off an event is ignored entirely (a trade needs
      both the trade and the liquidation flags off). */
  lemma SwitchedOffKindIgnored(st: ExecState, f: Flags, instId: string, d: MarketData)
    requires (d.TickerData? && !f.useTicker) || (d.DepthData? && !f.useDepth) ||
             (d.TradeData? && !f.useTrades && !f.useLiquidations) || (d.KlineData? && !f.useKline)
    ensures EventStep(st, f, instId, d) == Ok(st)
  {
    if d.TradeData? {
      assert TradeCallbacks(f, instId, d.trade) == [];
      NotifyAllShort(st, []);
    }
  }

  /** A ticker event calls `OnTicker` once, at the event's time, after the
      price update (when tickers price) and after the one-level book is put
      in place (when depths are not replayed). */
  lemma TickerCallbackView(st: ExecState, f: Flags, instId: string, v: Ticker)
    requires f.useTicker && TickerStep(st, f, instId, v).Ok?
    ensures var r := TickerStep(st, f, instId, v).value;
      |r.trace| == |st.trace| + 1 && r.trace[..|st.trace|] == st.trace &&
      var c := r.trace[|st.trace|];
      c.callback == OnTicker(instId, v) && c.time == st.time &&
      (f.pxbyTicker ==> instId in c.prices && c.prices[instId] == v.price) &&
      (!f.pxbyTicker ==> c.prices == st.priceOfInsts) &&
      (!f.useDepth ==> instId in c.depths && c.depths[instId] == NewDepthFromTicker(v)) &&
      (f.useDepth ==> c.depths == st.depthOfInsts)
  {
  }

  /** A depth event calls `OnDepth` once, with the book already stored and,
      when depths price, the mid price already recorded. */
  lemma DepthCallbackView(st: ExecState, f: Flags, instId: string, v: Depth)
    requires f.useDepth && DepthStep(st, f, instId, v).Ok?
    ensures var r := DepthStep(st, f, instId, v).value;
      |r.trace| == |st.trace| + 1 && r.trace[..|st.trace|] == st.trace &&
      var c := r.trace[|st.trace|];
      c.callback == OnDepth(instId, v) && c.time == st.time &&
      instId in c.depths && c.depths[instId] == v &&
      (f.pxbyDepth ==> instId in c.prices && c.prices[instId] == v.mid) &&
      (!f.pxbyDepth ==> c.prices == st.priceOfInsts)
  {
  }

  /** A kline event calls `OnKlineUnit` once, with the close price already
      recorded when klines price. */
  lemma KlineCallbackView(st: ExecState, f: Flags, instId: string, v: KlineUnit)
    requires f.useKline && KlineStep(st, f, instId, v).Ok?
    ensures var r := KlineStep(st, f, instId, v).value;
      |r.trace| == |st.trace| + 1 && r.trace[..|st.trace|] == st.trace &&
      var c := r.trace[|st.trace|];
      c.callback == OnKlineUnit(instId, v) && c.time == st.time &&
      (f.pxbyKline ==> instId in c.prices && c.prices[instId] == v.closePrice) &&
      (!f.pxbyKline ==> c.prices == st.priceOfInsts)
  {
  }

  /** The trade callbacks by tag and flags: a normal trade reaches `OnTrade`
      and, when liquidations are replayed, `OnLiquidation` as well; a
      liquidation reaches `OnLiquidation` twice when liquidations are
      replayed. */
  lemma TradeCallbackOrder(f: Flags, instId: string, v: Trade)
    ensures v.tag == Normal && f.useLiquidations ==>
      TradeCallbacks(f, instId, v) == [OnTrade(instId, v), OnLiquidation(instId, v)]
    ensures v.tag == Normal && f.useTrades && !f.useLiquidations ==>
      TradeCallbacks(f, instId, v) == [OnTrade(instId, v)]
    ensures v.tag == Liquidation && f.useLiquidations ==>
      TradeCallbacks(f, instId, v) == [OnLiquidation(instId, v), OnLiquidation(instId, v)]
    ensures v.tag == Liquidation && f.useTrades && !f.useLiquidations ==>
      TradeCallbacks(f, instId, v) == [OnLiquidation(instId, v)]
  {
  }

  /** A trade event records its callbacks, in order, all with the executor
      as it stands after the price update. */
  lemma TradeCallbackView(st: ExecState, f: Flags, instId: string, v: Trade)
    requires TradeStep(st, f, instId, v).Ok?
    ensures var r := TradeStep(st, f, instId, v).value;
      var cbs := TradeCallbacks(f, instId, v);
      |r.trace| == |st.trace| + |cbs| && r.trace[..|st.trace|] == st.trace &&
      forall i :: 0 <= i < |cbs| ==> r.trace[|st.trace| + i].callback == cbs[i] && r.trace[|st.trace| + i].time == st.time
  {
    var st1 := if (f.useTrades || f.useLiquidations) && v.tag == Normal && f.pxbyTrades
               then OnLatestPrice(st, instId, v.price).value else st;
    assert st1.trace == st.trace && st1.time == st.time;
  }

  /** One event only appends to the callback record. */
  lemma EventExtendsTrace(st: ExecState, f: Flags, instId: string, d: MarketData)
    requires EventStep(st, f, instId, d).Ok?
    ensures st.trace <= EventStep(st, f, instId, d).value.trace
  {
    match d
    case TickerData(v) =>
      if f.useTicker {
        TickerCallbackView(st, f, instId, v);
      }
    case DepthData(v) =>
      if f.useDepth {
        DepthCallbackView(st, f, instId, v);
      }
    case TradeData(v) =>
      TradeCallbackView(st, f, instId, v);
    case KlineData(v) =>
      if f.useKline {
        KlineCallbackView(st, f, instId, v);
      }
  }

  /** The event dispatch itself moves no balance: the strategy's callbacks
      are recorded and the balances and the initial balances come out as
      they went in, while the callback record only grows.  Orders a
      strategy places from its callbacks are not part of this model. */
  lemma {:induction false} ReplayKeepsBalances(st: ExecState, f: Flags, instIds: seq<string>, units: seq<MarketInfoUnit>)
    requires Replay(st, f, instIds, units).Ok?
    ensures var r := Replay(st, f, instIds, units).value;
      r.balance == st.balance && r.initBalance == st.initBalance && st.trace <= r.trace
    decreases |units|
  {
    if |units| > 0 {
      var init := units[..|units| - 1];
      var u := units[|units| - 1];
      ReplayKeepsBalances(st, f, instIds, init);
      var mid := Replay(st, f, instIds, init).value;
      EventExtendsTrace(mid.(time := u.time), f, instIds[u.instIdIndex], u.data);
    }
  }

  /** After a replay the executor's time is that of the last event. */
  lemma ReplayEndsAtLastEvent(st: ExecState, f: Flags, instIds: seq<string>, units: seq<MarketInfoUnit>)
    requires |units| > 0 && Replay(st, f, instIds, units).Ok?
    ensures Replay(st, f, instIds, units).value.time == units[|units| - 1].time
  {
  }

  /** `Run` takes its snapshot of the balances as the initial ones, and its
      event dispatch leaves both where they were (orders a strategy places
      from its callbacks are not part of this model). */
  lemma RunKeepsBalances(st: ExecState, f: Flags, instIds: seq<string>, units: seq<MarketInfoUnit>)
    requires RunSpec(st, f, instIds, units).Ok?
    ensures var r := RunSpec(st, f, instIds, units).value;
      r.initBalance == st.balance && r.balance == st.balance
  {
    ReplayKeepsBalances(st.(initBalance := st.balance), f, instIds, units);
  }

  /** An event whose instrument index is out of range stops the replay
      (the index panics), however the events before it went. */
  lemma {:induction false} BadIndexStopsReplay(st: ExecState, f: Flags, instIds: seq<string>, units: seq<MarketInfoUnit>, i: nat)
    requires i < |units| && !(0 <= units[i].instIdIndex < |instIds|)
    ensures Replay(st, f, instIds, units).Fail?
    decreases |units|
  {
    if i < |units| - 1 {
      BadIndexStopsReplay(st, f, instIds, units[..|units| - 1], i);
    }
  }

  /** Every event a load appends carries the index of one of the requested
      instruments. */
  lemma {:induction false} StagedEventsInRange(req: LoadRequest, local: LocalData, k: nat, u: MarketInfoUnit)
    requires k <= |LOAD_ORDER|
    requires u in StagedBag(req, local, IndexMap(req.instIds), k)
    ensures 0 <= u.instIdIndex < |req.instIds|
    decreases k
  {
    var index := IndexMap(req.instIds);
    if u in StagedBag(req, local, index, k - 1) {
      StagedEventsInRange(req, local, k - 1, u);
    } else {
      KindBagEvents(local, LOAD_ORDER[k - 1], index, index.Keys, req.klineIntervalSec, u);
      IndexMapFacts(req.instIds);
    }
  }

  /** A feed loaded into an empty executor holds only in-range indexes, so
      its replay never fails on an index. */
  lemma LoadedFeedInRange(req: LoadRequest, local: LocalData, feed: seq<MarketInfoUnit>)
    requires multiset(feed) == LoadedBag(req, local, IndexMap(req.instIds))
    ensures forall i :: 0 <= i < |feed| ==> 0 <= feed[i].instIdIndex < |req.instIds|
  {
    forall i | 0 <= i < |feed|
      ensures 0 <= feed[i].instIdIndex < |req.instIds|
    {
      assert feed[i] in multiset(feed);
      StagedEventsInRange(req, local, |LOAD_ORDER|, feed[i]);
    }
  }

  // ---------------------------------------------------------------------
  // The taker signal.

  /** With a book for the instrument and non-negative level amounts, the
      fill never exceeds what the side of the book holds. */
  lemma TakerFillWithinBook(st: ExecState, instId: string, price: real, amount: real, isSell: bool)
    requires instId in st.depthOfInsts && NonNegativeAmounts(Side(st.depthOfInsts[instId], isSell))
    ensures TakerFill(st, instId, price, amount, isSell).1 <= TotalAmount(Side(st.depthOfInsts[instId], isSell))
  {
    var levels := Side(st.depthOfInsts[instId], isSell);
    var maxAmount := FillableAmount(levels, price, isSell);
    var clamped := if maxAmount < amount then maxAmount else amount;
    AvgWalkConsumesAtMostSide(levels, 0, clamped, 0.0, 0.0);
    assert levels[0..] == levels;
  }

  /** When the best level at or better than the limit covers the order, the
      order fills whole at that level's price. */
  lemma TakerFillAtBestLevel(st: ExecState, instId: string, price: real, amount: real, isSell: bool)
    requires instId in st.depthOfInsts
    requires var levels := Side(st.depthOfInsts[instId], isSell);
      |levels| > 0 && AtOrBetter(levels[0], price, isSell) && levels[0].amount >= amount > 0.0 &&
      NonNegativeAmounts(levels)
    ensures TakerFill(st, instId, price, amount, isSell) == (Side(st.depthOfInsts[instId], isSell)[0].price, amount)
  {
    var levels := Side(st.depthOfInsts[instId], isSell);
    FillableFirst(levels, price, isSell);
    FirstLevelCovers(levels, amount);
  }

  /** The fillable amount includes the best level when it passes the limit. */
  lemma {:induction false} FillableFirst(levels: seq<DepthUnit>, price: real, isSell: bool)
    requires |levels| > 0 && AtOrBetter(levels[0], price, isSell) && NonNegativeAmounts(levels)
    ensures FillableAmount(levels, price, isSell) >= levels[0].amount
    decreases |levels|
  {
    if |levels| > 1 {
      var init := levels[..|levels| - 1];
      assert init[0] == levels[0];
      FillableFirst(init, price, isSell);
    }
  }

  /** As written, a taker signal on a contract without a ledger fails, since
      its first fill does. */
  lemma FirstContractSignalFails(st: ExecState, fees: FeeConfig, instId: string, price: real, amount: real, isSell: bool)
    requires GetInstType(instId) != INST_SPOT && instId !in st.ledgers
    ensures SignalTaker(st, fees, instId, price, amount, isSell) == Fail(DivisionByZero)
  {
    var fill := TakerFill(st, instId, price, amount, isSell);
    FirstContractFillFails(st, fees, instId, fill.0, if isSell then -fill.1 else fill.1, true);
  }

  /** A spot signal moves balances only: ledgers, books, prices, time and the
      callback record are untouched. */
  lemma SpotSignalTouchesOnlyBalances(st: ExecState, fees: FeeConfig, instId: string, price: real, amount: real, isSell: bool)
    requires GetInstType(instId) == INST_SPOT && SignalTaker(st, fees, instId, price, amount, isSell).Ok?
    ensures SignalTaker(st, fees, instId, price, amount, isSell).value.(balance := st.balance) == st
  {
  }
}
