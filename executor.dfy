/** The backtest executor: it holds the replay feed, the balances, one
    contract ledger per instrument, the latest books and prices, and the
    record of the strategy callbacks it made.  Every operation updates the
    object in place and is proved to follow the matching function of
    `ExecutorSpec`. */
module Executors {
  import opened Wrappers
  import opened Defines
  import opened OrderBook
  import opened ContractPositions
  import opened MarketInfo
  import opened ExecutorSpec

  class Executor {
    const fees: FeeConfig

    // The replay feed.
    var instIds: seq<string>
    var instIdIndexs: map<string, int>
    var marketInfoSeq: seq<MarketInfoUnit>
    var useTicker: bool
    var useDepth: bool
    var useTrades: bool
    var useLiquidations: bool
    var useKline: bool
    var pxbyTicker: bool
    var pxbyDepth: bool
    var pxbyTrades: bool
    var pxbyKline: bool

    // The accounts.
    var time: int
    var initBalance: map<string, real>
    var balance: map<string, real>
    var unrealizedPnl: map<string, real>
    /** Each instrument's contract ledger, held as a value. */
    var positions: map<string, LedgerState>
    var depthOfInsts: map<string, Depth>
    var priceOfInsts: map<string, real>

    /** The strategy callbacks made so far. */
    var trace: seq<Call>

    function CurrentFlags(): Flags
      reads this
    {
      Flags(useTicker, useDepth, useTrades, useLiquidations, useKline, pxbyTicker, pxbyDepth, pxbyTrades, pxbyKline)
    }

    /** The accounts as a value. */
    function Abstract(): ExecState
      reads this
    {
      ExecState(time, initBalance, balance, unrealizedPnl, positions, depthOfInsts, priceOfInsts, trace)
    }

    /** `NewExecutor`, without the local data path and the charts. */
    constructor (fees: FeeConfig)
      ensures this.fees == fees
      ensures Abstract() == ExecState(0, map[], map[], map[], map[], map[], map[], [])
      ensures instIds == [] && instIdIndexs == map[] && marketInfoSeq == [] && CurrentFlags() == NO_FLAGS
    {
      this.fees := fees;
      instIds, instIdIndexs, marketInfoSeq := [], map[], [];
      useTicker, useDepth, useTrades, useLiquidations, useKline := false, false, false, false, false;
      pxbyTicker, pxbyDepth, pxbyTrades, pxbyKline := false, false, false, false;
      time := 0;
      initBalance, balance, unrealizedPnl := map[], map[], map[];
      positions, depthOfInsts, priceOfInsts := map[], map[], map[];
      trace := [];
    }

    // -------------------------------------------------------------------
    // The strategy context's getters.

    /** `GetTime`: the time of the event being replayed. */
    function GetTime(): (r: int)
      reads this
      ensures r == Abstract().time
    {
      time
    }

    /** `GetBalance`: the balance and whether the currency has one. */
    function GetBalance(ccy: string): (r: (real, bool))
      reads this
      ensures r.1 <==> ccy in balance
      ensures r.0 == Get(balance, ccy)
    {
      if ccy in balance then (balance[ccy], true) else (0.0, false)
    }

    /** `GetPosition`: the signed holding and the open average of the
        instrument's ledger, (0, 0) without one. */
    function GetPosition(instId: string): (r: (real, real))
      reads this
      ensures instId in Abstract().ledgers ==> r == (Abstract().ledgers[instId].position, Abstract().ledgers[instId].avgOpen)
      ensures instId !in Abstract().ledgers ==> r == (0.0, 0.0)
    {
      if instId in positions then (positions[instId].position, positions[instId].avgOpen) else (0.0, 0.0)
    }

    /** `GetLatestPrice`. */
    function GetLatestPrice(instId: string): (r: (real, bool))
      reads this
      ensures r.1 <==> instId in priceOfInsts
      ensures r.0 == Get(priceOfInsts, instId)
    {
      if instId in priceOfInsts then (priceOfInsts[instId], true) else (0.0, false)
    }

    /** `GetDepth`: the latest book, or the empty book. */
    function GetDepth(instId: string): (r: (Depth, bool))
      reads this
      ensures r.1 <==> instId in depthOfInsts
      ensures r.1 ==> r.0 == depthOfInsts[instId]
      ensures !r.1 ==> r.0 == Depth(0, [], [], 0.0, 0.0, 0.0)
    {
      if instId in depthOfInsts then (depthOfInsts[instId], true) else (Depth(0, [], [], 0.0, 0.0, 0.0), false)
    }

    // -------------------------------------------------------------------
    // Accounts.

    /** `SetBalance`. */
    method SetBalance(ccy: string, amount: real)
      modifies this`balance
      ensures Abstract() == old(Abstract()).(balance := old(balance)[ccy := amount])
    {
      balance := balance[ccy := amount];
    }

    /** `spotBuy`. */
    method SpotBuy(baseCcy: string, quoteCcy: string, price: real, amount: real, taker: bool)
      modifies this`balance
      ensures Abstract() == old(Abstract()).(balance := ExecutorSpec.SpotBuy(old(balance), fees, baseCcy, quoteCcy, price, amount, taker))
    {
      var quoteAmount := Mul(price, amount);
      var fee := Mul(amount, if taker then fees.spotTaker else fees.spotMaker);
      var net := amount - fee;
      balance := balance[baseCcy := Get(balance, baseCcy) + net];
      balance := balance[quoteCcy := Get(balance, quoteCcy) - quoteAmount];
    }

    /** `spotSell`. */
    method SpotSell(baseCcy: string, quoteCcy: string, price: real, amount: real, taker: bool)
      modifies this`balance
      ensures Abstract() == old(Abstract()).(balance := ExecutorSpec.SpotSell(old(balance), fees, baseCcy, quoteCcy, price, amount, taker))
    {
      var quoteAmount := Mul(price, amount);
      var fee := Mul(quoteAmount, if taker then fees.spotTaker else fees.spotMaker);
      quoteAmount := quoteAmount - fee;
      balance := balance[baseCcy := Get(balance, baseCcy) - amount];
      balance := balance[quoteCcy := Get(balance, quoteCcy) + quoteAmount];
    }

    /** `contractDeal`: find or create the instrument's ledger, record the
        fill, settle profit and fee on the margin currency.  A failing fill
        stops the backtest; nothing is promised about the state then. */
    method ContractDeal(instId: string, price: real, amount: real, taker: bool) returns (r: Result<()>)
      modifies this`positions, this`balance
      ensures r.Ok? <==> ExecutorSpec.ContractDeal(old(Abstract()), fees, instId, price, amount, taker).Ok?
      ensures r.Ok? ==> Abstract() == ExecutorSpec.ContractDeal(old(Abstract()), fees, instId, price, amount, taker).value
      ensures r.Fail? ==> r.error == ExecutorSpec.ContractDeal(old(Abstract()), fees, instId, price, amount, taker).error
      ensures positions.Keys == old(positions).Keys + {instId}
    {
      ContractDealValue(Abstract(), fees, instId, price, amount, taker);
      if instId !in positions {
        positions := positions[instId := Fresh(LedgerConfigFor(fees, instId))];
      }
      var ct := positions[instId];
      var out :- DealSpec(ct, price, amount, taker, time);
      positions := positions[instId := out.state];
      balance := balance[ct.cfg.marginCcy := Get(balance, ct.cfg.marginCcy) + out.profit - out.fee];
      r := Ok(());
    }

    /** `onLatestPrice`. */
    method OnLatestPrice(instId: string, price: real) returns (r: Result<()>)
      modifies this`priceOfInsts, this`positions, this`unrealizedPnl
      ensures r.Ok? <==> ExecutorSpec.OnLatestPrice(old(Abstract()), instId, price).Ok?
      ensures r.Ok? ==> Abstract() == ExecutorSpec.OnLatestPrice(old(Abstract()), instId, price).value
      ensures r.Fail? ==> r.error == ExecutorSpec.OnLatestPrice(old(Abstract()), instId, price).error
    {
      priceOfInsts := priceOfInsts[instId := price];
      if instId in positions {
        var pos :- UpdateSpec(positions[instId], price);
        positions := positions[instId := pos];
        unrealizedPnl := unrealizedPnl[pos.cfg.marginCcy := pos.unrealizedProfit];
      }
      r := Ok(());
    }

    /** The strategy is called with the executor as it stands. */
    method Notify(cb: Callback)
      modifies this`trace
      ensures Abstract() == ExecutorSpec.Notify(old(Abstract()), cb)
      ensures marketInfoSeq == old(marketInfoSeq)
    {
      trace := trace + [Call(time, priceOfInsts, depthOfInsts, cb)];
    }

    /** The body of the loop of `Run` for one event. */
    method Dispatch(u: MarketInfoUnit) returns (r: Result<()>)
      modifies this`time, this`priceOfInsts, this`positions, this`unrealizedPnl, this`depthOfInsts, this`trace
      ensures r.Ok? <==> Step(old(Abstract()), old(CurrentFlags()), old(instIds), u).Ok?
      ensures r.Ok? ==> Abstract() == Step(old(Abstract()), old(CurrentFlags()), old(instIds), u).value
      ensures r.Fail? ==> r.error == Step(old(Abstract()), old(CurrentFlags()), old(instIds), u).error
    {
      time := u.time;
      if !(0 <= u.instIdIndex < |instIds|) {
        return Fail(IndexOutOfRange);
      }
      r := OnEvent(instIds[u.instIdIndex], u.data);
    }

    /** The switch of the dispatch on the kind of the event. */
    method OnEvent(instId: string, d: MarketData) returns (r: Result<()>)
      modifies this`priceOfInsts, this`positions, this`unrealizedPnl, this`depthOfInsts, this`trace
      ensures r.Ok? <==> EventStep(old(Abstract()), CurrentFlags(), instId, d).Ok?
      ensures r.Ok? ==> Abstract() == EventStep(old(Abstract()), CurrentFlags(), instId, d).value
      ensures r.Fail? ==> r.error == EventStep(old(Abstract()), CurrentFlags(), instId, d).error
    {
      match d {
        case TickerData(v) => r := OnTickerEvent(instId, v);
        case DepthData(v) => r := OnDepthEvent(instId, v);
        case TradeData(v) => r := OnTradeEvent(instId, v);
        case KlineData(v) => r := OnKlineEvent(instId, v);
      }
    }

    /** The ticker case of the dispatch. */
    method OnTickerEvent(instId: string, v: Ticker) returns (r: Result<()>)
      modifies this`priceOfInsts, this`positions, this`unrealizedPnl, this`depthOfInsts, this`trace
      ensures r.Ok? <==> TickerStep(old(Abstract()), CurrentFlags(), instId, v).Ok?
      ensures r.Ok? ==> Abstract() == TickerStep(old(Abstract()), CurrentFlags(), instId, v).value
      ensures r.Fail? ==> r.error == TickerStep(old(Abstract()), CurrentFlags(), instId, v).error
    {
      if useTicker {
        if pxbyTicker {
          var p := OnLatestPrice(instId, v.price);
          if p.Fail? {
            return Fail(p.error);
          }
        }
        if !useDepth {
          depthOfInsts := depthOfInsts[instId := NewDepthFromTicker(v)];
        }
        Notify(OnTicker(instId, v));
      }
      r := Ok(());
    }

    /** The depth case of the dispatch. */
    method OnDepthEvent(instId: string, v: Depth) returns (r: Result<()>)
      modifies this`priceOfInsts, this`positions, this`unrealizedPnl, this`depthOfInsts, this`trace
      ensures r.Ok? <==> DepthStep(old(Abstract()), CurrentFlags(), instId, v).Ok?
      ensures r.Ok? ==> Abstract() == DepthStep(old(Abstract()), CurrentFlags(), instId, v).value
      ensures r.Fail? ==> r.error == DepthStep(old(Abstract()), CurrentFlags(), instId, v).error
    {
      if useDepth {
        depthOfInsts := depthOfInsts[instId := v];
        if pxbyDepth {
          var p := OnLatestPrice(instId, v.mid);
          if p.Fail? {
            return Fail(p.error);
          }
        }
        Notify(OnDepth(instId, v));
      }
      r := Ok(());
    }

    /** The trade case of the dispatch: the block for trades and
        liquidations by tag, then the block for liquidations, which sees
        every trade again. */
    method OnTradeEvent(instId: string, v: Trade) returns (r: Result<()>)
      modifies this`priceOfInsts, this`positions, this`unrealizedPnl, this`depthOfInsts, this`trace
      ensures r.Ok? <==> TradeStep(old(Abstract()), CurrentFlags(), instId, v).Ok?
      ensures r.Ok? ==> Abstract() == TradeStep(old(Abstract()), CurrentFlags(), instId, v).value
      ensures r.Fail? ==> r.error == TradeStep(old(Abstract()), CurrentFlags(), instId, v).error
    {
      ghost var before := Abstract();
      ghost var cbs := TradeCallbacks(CurrentFlags(), instId, v);
      if useTrades || useLiquidations {
        if v.tag == Normal {
          if pxbyTrades {
            var p := OnLatestPrice(instId, v.price);
            if p.Fail? {
              return Fail(p.error);
            }
          }
          before := Abstract();
          Notify(OnTrade(instId, v));
        } else if v.tag == Liquidation {
          Notify(OnLiquidation(instId, v));
        }
      }
      if useLiquidations {
        Notify(OnLiquidation(instId, v));
      }
      NotifyAllShort(before, cbs);
      r := Ok(());
    }

    /** The kline case of the dispatch. */
    method OnKlineEvent(instId: string, v: KlineUnit) returns (r: Result<()>)
      modifies this`priceOfInsts, this`positions, this`unrealizedPnl, this`depthOfInsts, this`trace
      ensures r.Ok? <==> KlineStep(old(Abstract()), CurrentFlags(), instId, v).Ok?
      ensures r.Ok? ==> Abstract() == KlineStep(old(Abstract()), CurrentFlags(), instId, v).value
      ensures r.Fail? ==> r.error == KlineStep(old(Abstract()), CurrentFlags(), instId, v).error
    {
      if useKline {
        if pxbyKline {
          var p := OnLatestPrice(instId, v.closePrice);
          if p.Fail? {
            return Fail(p.error);
          }
        }
        Notify(OnKlineUnit(instId, v));
      }
      r := Ok(());
    }

    /** `Run` (the dispatch part): remember the balances as the initial
        ones, then replay every event of the feed in order.  A failing
        event stops the replay. */
    method Run() returns (r: Result<()>)
      modifies this`initBalance, this`time, this`priceOfInsts, this`positions, this`unrealizedPnl, this`depthOfInsts, this`trace
      ensures r.Ok? <==> RunSpec(old(Abstract()), CurrentFlags(), instIds, marketInfoSeq).Ok?
      ensures r.Ok? ==> Abstract() == RunSpec(old(Abstract()), CurrentFlags(), instIds, marketInfoSeq).value
      ensures r.Fail? ==> r.error == RunSpec(old(Abstract()), CurrentFlags(), instIds, marketInfoSeq).error
    {
      initBalance := balance;
      r := ReplayFeed();
    }

    /** The loop of `Run` over the feed. */
    method ReplayFeed() returns (r: Result<()>)
      modifies this`time, this`priceOfInsts, this`positions, this`unrealizedPnl, this`depthOfInsts, this`trace
      ensures r.Ok? <==> Replay(old(Abstract()), CurrentFlags(), instIds, marketInfoSeq).Ok?
      ensures r.Ok? ==> Abstract() == Replay(old(Abstract()), CurrentFlags(), instIds, marketInfoSeq).value
      ensures r.Fail? ==> r.error == Replay(old(Abstract()), CurrentFlags(), instIds, marketInfoSeq).error
    {
      ghost var start := Abstract();
      for i := 0 to |marketInfoSeq|
        invariant Replay(start, CurrentFlags(), instIds, marketInfoSeq[..i]) == Ok(Abstract())
      {
        ReplayExtend(start, CurrentFlags(), instIds, marketInfoSeq, i, Abstract());
        var s := Dispatch(marketInfoSeq[i]);
        if s.Fail? {
          ReplayFailurePersists(start, CurrentFlags(), instIds, marketInfoSeq, i + 1);
          return Fail(s.error);
        }
      }
      assert marketInfoSeq[..|marketInfoSeq|] == marketInfoSeq;
      r := Ok(());
    }

    // -------------------------------------------------------------------
    // Valuation.

    /** Sum the converted entries of one balance map; the first conversion
        that divides by zero stops the valuation. */
    method SumConverted(m: map<string, real>, baseCcy: string) returns (r: Result<real>)
      ensures r.Fail? <==> exists k :: k in m && !Converts(priceOfInsts, m, k, baseCcy)
      ensures r.Fail? ==> r.error == DivisionByZero
      ensures r.Ok? ==> r.value == ConvertedSum(priceOfInsts, m, m.Keys, baseCcy)
    {
      var total := 0.0;
      var keys := m.Keys;
      while keys != {}
        invariant keys <= m.Keys
        invariant total + ConvertedSum(priceOfInsts, m, keys, baseCcy) == ConvertedSum(priceOfInsts, m, m.Keys, baseCcy)
        invariant forall k :: k in m && k !in keys ==> Converts(priceOfInsts, m, k, baseCcy)
        decreases |keys|
      {
        var ccy :| ccy in keys;
        var c := ExchangeToCcy(priceOfInsts, ccy, baseCcy, m[ccy]);
        if c.Fail? {
          return Fail(c.error);
        }
        ConvertedSumRemove(priceOfInsts, m, keys, baseCcy, ccy);
        total := total + c.value;
        keys := keys - {ccy};
      }
      r := Ok(total);
    }

    /** `nav`: 1 without an initial balance; otherwise the valuation in
        whichever key of the initial balances is met first. */
    method Nav() returns (r: Result<real>)
      ensures |initBalance| == 0 ==> r == Ok(1.0)
      ensures |initBalance| > 0 ==> exists b :: b in initBalance && r == NavFor(Abstract(), b)
    {
      if |initBalance| == 0 {
        return Ok(1.0);
      }
      var baseCcy :| baseCcy in initBalance;
      r := NavIn(baseCcy);
    }

    /** The valuation in one baseline currency: 1 for a zero baseline,
        otherwise balances plus unrealized profits, all converted, over
        the baseline's initial balance. */
    method NavIn(baseCcy: string) returns (r: Result<real>)
      requires baseCcy in initBalance
      ensures r == NavFor(Abstract(), baseCcy)
    {
      var baseBal := initBalance[baseCcy];
      if baseBal == 0.0 {
        return Ok(1.0);
      }
      var currBal :- SumConverted(balance, baseCcy);
      var pnl :- SumConverted(unrealizedPnl, baseCcy);
      r := Ok((currBal + pnl) / baseBal);
    }

    // -------------------------------------------------------------------
    // The taker signal.

    /** `SignalTaker`: estimate the fill from the book, then trade it as
        taker, spot against the balances and contracts through their
        ledger. */
    method SignalTaker(instId: string, price: real, amount: real, isSell: bool) returns (r: Result<()>)
      modifies this`positions, this`balance
      ensures r.Ok? <==> ExecutorSpec.SignalTaker(old(Abstract()), fees, instId, price, amount, isSell).Ok?
      ensures r.Ok? ==> Abstract() == ExecutorSpec.SignalTaker(old(Abstract()), fees, instId, price, amount, isSell).value
      ensures r.Fail? ==> r.error == ExecutorSpec.SignalTaker(old(Abstract()), fees, instId, price, amount, isSell).error
    {
      var px, amt := BookFill(instId, price, amount, isSell);
      if GetInstType(instId) == INST_SPOT {
        var ccys :- InstId2Ccys(instId);
        if isSell {
          SpotSell(ccys.0, ccys.1, px, amt, true);
        } else {
          SpotBuy(ccys.0, ccys.1, px, amt, true);
        }
        r := Ok(());
      } else {
        if isSell {
          amt := -amt;
        }
        r := ContractDeal(instId, px, amt, true);
      }
    }

    /** The fill estimate of `SignalTaker`: with a book, the amount is cut
        to what the book fills at the limit price and the book walk gives
        price and amount. */
    method BookFill(instId: string, price: real, amount: real, isSell: bool) returns (px: real, amt: real)
      ensures (px, amt) == TakerFill(Abstract(), instId, price, amount, isSell)
    {
      px, amt := price, amount;
      if instId in depthOfInsts {
        var v := depthOfInsts[instId];
        var maxAmount := GetMaxAmount(v, px, isSell);
        if maxAmount < amt {
          amt := maxAmount;
        }
        px, amt := GetAvgPrice(v, amt, isSell);
      }
    }

    // -------------------------------------------------------------------
    // Loading the feed.

    /** One of `loadTickers`, `loadDepths`, `loadTrades`,
        `loadLiquidations` and `loadKlines`: the coverage check over the
        instrument list, then every instrument's records appended as
        events, instrument by instrument in map order. */
    method LoadKind(kind: Kind, req: LoadRequest, local: LocalData) returns (ok: bool)
      requires instIds == req.instIds
      modifies this`marketInfoSeq
      ensures ok <==> Covered(req, local, kind)
      ensures ok ==>
        multiset(marketInfoSeq) == multiset(old(marketInfoSeq)) + KindBag(local, kind, instIdIndexs, instIdIndexs.Keys, req.klineIntervalSec)
      ensures !ok ==> marketInfoSeq == old(marketInfoSeq)
    {
      match kind {
        case Tickers => ok := CheckCoverage(instIds, local.tickerIds, local.tickerRanges, req.t0, req.t1);
        case Depths => ok := CheckCoverage(instIds, local.depthIds, local.depthRanges, req.t0, req.t1);
        case Trades => ok := CheckCoverage(instIds, local.tradeIds, local.tradeRanges, req.t0, req.t1);
        case Liquidations => ok := true;
        case Klines => ok := CheckKlineCoverage(instIds, local, req.klineIntervalSec, req.t0, req.t1);
      }
      if ok {
        AppendKind(kind, local, req.klineIntervalSec);
      }
    }

    /** The append part of a load: every instrument's records of the kind,
        instrument by instrument in map order. */
    method AppendKind(kind: Kind, local: LocalData, interval: int)
      modifies this`marketInfoSeq
      ensures multiset(marketInfoSeq) == multiset(old(marketInfoSeq)) + KindBag(local, kind, instIdIndexs, instIdIndexs.Keys, interval)
    {
      ghost var start := marketInfoSeq;
      var keys := instIdIndexs.Keys;
      while keys != {}
        invariant keys <= instIdIndexs.Keys
        invariant multiset(marketInfoSeq) ==
          multiset(start) + KindBag(local, kind, instIdIndexs, instIdIndexs.Keys - keys, interval)
        decreases |keys|
      {
        var instId :| instId in keys;
        ghost var before := multiset(marketInfoSeq);
        AppendUnits(kind, local, instId, instIdIndexs[instId], interval);
        KindBagStep(local, kind, instIdIndexs, keys, interval, instId, multiset(start), before, multiset(marketInfoSeq));
        keys := keys - {instId};
      }
      assert instIdIndexs.Keys - keys == instIdIndexs.Keys;
    }

    /** One instrument's records of the kind appended as events, in the
        store's order. */
    method AppendUnits(kind: Kind, local: LocalData, instId: string, index: int, interval: int)
      modifies this`marketInfoSeq
      ensures marketInfoSeq == old(marketInfoSeq) + UnitsOf(local, kind, instId, index, interval)
    {
      var records := RecordsOf(local, kind, instId, interval);
      for j := 0 to |records|
        invariant marketInfoSeq == old(marketInfoSeq) + UnitsOf(local, kind, instId, index, interval)[..j]
      {
        UnitsOfPrefix(local, kind, instId, index, interval, j);
        marketInfoSeq := marketInfoSeq + [ToUnit(index, records[j])];
      }
      assert UnitsOf(local, kind, instId, index, interval)[..|records|] == UnitsOf(local, kind, instId, index, interval);
    }

    /** Stage `n` of `LoadMarketInfo`, reached after the earlier stages
        passed: a requested kind is loaded and its use flag raised, or its
        failing check stops the load. */
    method LoadStage(n: nat, req: LoadRequest, local: LocalData, ghost f0: Flags) returns (ok: bool)
      requires 0 < n <= |LOAD_ORDER| && instIds == req.instIds && PassedUpTo(req, local, n - 1)
      requires CurrentFlags() == StagedFlags(req, local, f0, n - 1)
      modifies this`marketInfoSeq, this`useTicker, this`useDepth, this`useTrades, this`useLiquidations, this`useKline
      ensures ok <==> PassedUpTo(req, local, n)
      ensures CurrentFlags() == StagedFlags(req, local, f0, n)
      ensures ok && Requested(req, LOAD_ORDER[n - 1]) ==>
        multiset(marketInfoSeq) == multiset(old(marketInfoSeq)) + KindBag(local, LOAD_ORDER[n - 1], instIdIndexs, instIdIndexs.Keys, req.klineIntervalSec)
      ensures !(ok && Requested(req, LOAD_ORDER[n - 1])) ==> marketInfoSeq == old(marketInfoSeq)
    {
      var kind := LOAD_ORDER[n - 1];
      StageAdvance(req, local, f0, n);
      RaiseNothing(CurrentFlags(), kind);
      if !Requested(req, kind) {
        return true;
      }
      ok := LoadKind(kind, req, local);
      if ok {
        RaiseUseFlag(kind);
      }
    }

    /** Mark a kind as replayed. */
    method RaiseUseFlag(kind: Kind)
      modifies this`useTicker, this`useDepth, this`useTrades, this`useLiquidations, this`useKline
      ensures CurrentFlags() == RaiseFlag(old(CurrentFlags()), kind, true)
    {
      match kind {
        case Tickers => useTicker := true;
        case Depths => useDepth := true;
        case Trades => useTrades := true;
        case Liquidations => useLiquidations := true;
        case Klines => useKline := true;
      }
    }

    /** The five load stages of `LoadMarketInfo`, in the load order; the
        first failing stage ends the load. */
    method LoadStages(req: LoadRequest, local: LocalData) returns (ok: bool)
      requires instIds == req.instIds
      modifies this`marketInfoSeq, this`useTicker, this`useDepth, this`useTrades, this`useLiquidations, this`useKline
      ensures ok <==> PassedUpTo(req, local, |LOAD_ORDER|)
      ensures CurrentFlags() == StagedFlags(req, local, old(CurrentFlags()), |LOAD_ORDER|)
      ensures multiset(marketInfoSeq) == multiset(old(marketInfoSeq)) + StagedBag(req, local, instIdIndexs, |LOAD_ORDER|)
    {
      ghost var f0, seq0 := CurrentFlags(), marketInfoSeq;
      ok := true;
      for n := 1 to |LOAD_ORDER| + 1
        invariant PassedUpTo(req, local, n - 1)
        invariant CurrentFlags() == StagedFlags(req, local, f0, n - 1)
        invariant multiset(marketInfoSeq) == multiset(seq0) + StagedBag(req, local, instIdIndexs, n - 1)
      {
        ghost var before := multiset(marketInfoSeq);
        ok := LoadStage(n, req, local, f0);
        StagedBagGrows(req, local, instIdIndexs, n, multiset(seq0), before, multiset(marketInfoSeq));
        if !ok {
          StagesStop(req, local, f0, instIdIndexs, n, |LOAD_ORDER|);
          return;
        }
      }
    }

    /** The price-source choice of `LoadMarketInfo`. */
    method ChoosePriceSource()
      modifies this`pxbyTicker, this`pxbyDepth, this`pxbyTrades, this`pxbyKline
      ensures CurrentFlags() == SelectPriceSource(old(CurrentFlags()))
    {
      if useKline {
        pxbyKline := true;
      } else if useTicker {
        pxbyTicker := true;
      } else if useTrades {
        pxbyTrades := true;
      } else if useDepth {
        pxbyDepth := true;
      }
    }

    /** `LoadMarketInfo`: set the instrument list and its index map, load the
        requested kinds in order (the first failing check ends the load with
        false), choose the price source, refuse an empty feed, and sort the
        feed by time.  Events loaded by an earlier call stay in the feed. */
    method LoadMarketInfo(req: LoadRequest, local: LocalData) returns (ok: bool)
      modifies this`instIds, this`instIdIndexs, this`marketInfoSeq, this`useTicker, this`useDepth, this`useTrades, this`useLiquidations, this`useKline, this`pxbyTicker, this`pxbyDepth, this`pxbyTrades, this`pxbyKline
      ensures instIds == req.instIds && instIdIndexs == IndexMap(req.instIds)
      ensures CurrentFlags() == LoadFlags(req, local, old(CurrentFlags()))
      ensures multiset(marketInfoSeq) == multiset(old(marketInfoSeq)) + LoadedBag(req, local, IndexMap(req.instIds))
      ensures ok <==> PassedUpTo(req, local, |LOAD_ORDER|) && |marketInfoSeq| > 0
      ensures ok ==> SortedByTime(marketInfoSeq)
    {
      instIds := req.instIds;
      instIdIndexs := BuildIndexMap(req.instIds);
      ok := LoadStages(req, local);
      ghost var staged := CurrentFlags();
      LoadFlagsFromStages(req, local, old(CurrentFlags()), staged);
      if ok {
        ok := FinishLoad();
      }
    }

    /** The end of a load whose stages all passed: choose the price source,
        refuse an empty feed, sort the feed by time. */
    method FinishLoad() returns (ok: bool)
      modifies this`marketInfoSeq, this`pxbyTicker, this`pxbyDepth, this`pxbyTrades, this`pxbyKline
      ensures CurrentFlags() == SelectPriceSource(old(CurrentFlags()))
      ensures multiset(marketInfoSeq) == multiset(old(marketInfoSeq))
      ensures ok <==> |marketInfoSeq| > 0
      ensures ok ==> SortedByTime(marketInfoSeq)
    {
      ChoosePriceSource();
      if |marketInfoSeq| == 0 {
        return false;
      }
      marketInfoSeq := SortByTime(marketInfoSeq);
      ok := true;
    }
  }
}
