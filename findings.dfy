/** Five places where the code as written departs from what it evidently
    means, each shown on a concrete input, with the corrected definition and
    the property it was meant to have.  The rest of the model follows the
    code as written. */
module Findings {
  import opened Wrappers
  import opened Defines
  import opened OrderBook
  import opened ContractPositions
  import opened ContractPositionProperties
  import opened MarketInfo
  import opened ExecutorSpec

  // ---------------------------------------------------------------------
  // 1. The closing profit takes the sign of the closing amount.

  /** As written: closing a long of 1 opened at 100 by selling at 110 books
      a loss of 10. */
  lemma CalProfitSignExample()
    ensures CalProfit(true, 100.0, 110.0, -1.0) == Ok((0.1, -10.0))
  {
    assert Div(10.0, 100.0) == Ok(0.1);
  }

  /** Corrected: the same close earns 10. */
  lemma CalProfitIntendedExample()
    ensures CalProfitIntended(true, 100.0, 110.0, -1.0) == Ok((0.1, 10.0))
  {
    assert Div(-10.0, 100.0) == Ok(-0.1);
  }

  // ---------------------------------------------------------------------
  // 2. A fill on a flat ledger never opens a position.

  /** Corrected: on a flat ledger satisfying the invariant, a non-zero fill at
      a positive price opens a position of that size at that price and
      realizes nothing. */
  lemma IntendedDealOpensFromFlat(s: LedgerState, price: real, amount: real, taker: bool, t: int)
    requires LedgerValid(s) && s.position == 0.0 && amount != 0.0 && price > 0.0
    ensures DealAt(Intended, s, price, amount, taker, t, MAX_SPLIT_DEPTH).Ok?
    ensures var out := DealAt(Intended, s, price, amount, taker, t, MAX_SPLIT_DEPTH).value;
      out.state.position == amount && out.state.avgOpen == price &&
      out.state.maxPositionAbs == Abs(amount) && out.profit == 0.0 &&
      out.state.realizedProfit == s.realizedProfit
  {
    assert Opens(Intended, s.position, amount);
    CalAvgPriceNoPrior(price, Abs(amount), 0.0);
    var s1 := OpenStep(s, price, amount).value;
    assert s1.position == amount && s1.avgOpen == price && s1.maxPositionAbs == Abs(amount);
    SideAverageDefined(price, Abs(amount), s1.buyPriceAvg, s1.buyAmountTotal);
    SideAverageDefined(price, Abs(amount), s1.sellPriceAvg, s1.sellAmountTotal);
    SettleEffects(s1, price, amount, taker, 0.0);
  }

  /** A positive fill at a positive price always averages into a side whose
      total is not negative. */
  lemma SideAverageDefined(price: real, amountAbs: real, priceAvg: real, total: real)
    requires price > 0.0 && amountAbs > 0.0 && total >= 0.0
    ensures CalAvgPrice(price, amountAbs, priceAvg, total).Ok?
  {
    assert amountAbs / price > 0.0;
  }

  // ---------------------------------------------------------------------
  // 2b. A flat ledger whose open average is not 0 recurses without end.

  /** A flat ledger that still carries averages and past volume: neither
      the constructor nor `Deal` produces one, but nothing in the ledger's
      fields rules it out. */
  predicate StaleFlat(s: LedgerState, price: real) {
    s.position == 0.0 && s.avgOpen != 0.0 && price > 0.0 && s.cfg.isUsdt &&
    s.maxPositionAbs > 0.0 && s.avgClose > 0.0 && s.sellAmountTotal > 0.0 && s.sellPriceAvg > 0.0
  }

  /** On such a ledger the zero-sized first leg of the split is a close
      that changes nothing. */
  lemma ZeroCloseChangesNothing(s: LedgerState, price: real, taker: bool, t: int)
    requires StaleFlat(s, price)
    ensures CloseDeal(AsWritten, s, price, 0.0, taker, t) == Ok(DealOutcome(s, 0.0, 0.0))
  {
    CalProfitClosedForm(true, s.avgOpen, price, 0.0);
    assert ClosingProfit(AsWritten, true, s.avgOpen, price, 0.0).value.1 == 0.0;
    AverageOfNothing(price, s.avgClose, s.maxPositionAbs);
    assert CloseStep(AsWritten, s, price, 0.0, t) == Ok((s, 0.0));
    AverageOfNothing(price, s.sellPriceAvg, s.sellAmountTotal);
    assert CalFee(s.cfg, price, 0.0, taker) == Ok(0.0);
    assert Settle(s, price, 0.0, taker, 0.0) == Ok(DealOutcome(s, 0.0, 0.0));
  }

  /** Averaging in a fill of nothing keeps a positive average. */
  lemma AverageOfNothing(price: real, avg: real, total: real)
    requires price > 0.0 && avg > 0.0 && total > 0.0
    ensures CalAvgPrice(price, 0.0, avg, total) == Ok(avg)
  {
    var w := PriorWeight(total, avg);
    var r := CalAvgPrice(price, 0.0, avg, total).value;
    assert w * avg == total && r * w == total;
    assert (r - avg) * w == 0.0;
  }

  /** As written: any non-zero fill on such a ledger splits into a close of
      nothing and the same fill on the same ledger, so no split budget is
      ever enough: `Deal` calls itself until the stack overflows. */
  lemma {:induction false} StaleFlatLedgerRecursesForever(s: LedgerState, price: real, amount: real, taker: bool, t: int, depth: nat)
    requires StaleFlat(s, price) && amount != 0.0
    ensures DealAt(AsWritten, s, price, amount, taker, t, depth) == Fail(SplitDepthExceeded)
  {
    if depth > 0 {
      ZeroCloseChangesNothing(s, price, taker, t);
      assert -s.position == 0.0 && amount + s.position == amount;
      assert DealAt(AsWritten, s, price, 0.0, taker, t, depth - 1) == Ok(DealOutcome(s, 0.0, 0.0));
      StaleFlatLedgerRecursesForever(s, price, amount, taker, t, depth - 1);
    }
  }

  /** As written, on a flat ledger with no close history (maximum holding
      0) the zero-sized first leg divides 0 by 0 when it re-averages the
      close price, so the code panics instead of recursing. */
  lemma FlatWithoutCloseHistoryFails(s: LedgerState, price: real, amount: real, taker: bool, t: int, depth: nat)
    requires s.position == 0.0 && s.maxPositionAbs == 0.0 && amount != 0.0 && depth >= 1
    ensures DealAt(AsWritten, s, price, amount, taker, t, depth) == Fail(DivisionByZero)
  {
    BranchFailuresAreDivisions(AsWritten, s, price, 0.0, taker, t);
    assert -s.position == 0.0;
    assert CloseStep(AsWritten, s, price, 0.0, t).Fail?;
    assert DealAt(AsWritten, s, price, 0.0, taker, t, depth - 1) == Fail(DivisionByZero);
  }

  /** Corrected: with the flat ledger sent to the opening branch, one level
      of splitting is enough for every ledger, so a fill either succeeds or
      fails by a division by zero, never by running out of splits. */
  lemma IntendedSplitTerminates(s: LedgerState, price: real, amount: real, taker: bool, t: int)
    ensures DealAt(Intended, s, price, amount, taker, t, 1).Fail? ==>
      DealAt(Intended, s, price, amount, taker, t, 1).error == DivisionByZero
  {
    BranchFailuresAreDivisions(Intended, s, price, amount, taker, t);
    if !Opens(Intended, s.position, amount) && Abs(amount) > Abs(s.position) {
      IntendedSplitLegs(s, price, amount, taker, t);
    }
  }

  /** Under the corrected guard the split's first leg closes the holding and
      its second leg opens from flat, so neither splits again. */
  lemma IntendedSplitLegs(s: LedgerState, price: real, amount: real, taker: bool, t: int)
    requires !Opens(Intended, s.position, amount) && Abs(amount) > Abs(s.position)
    ensures SplitDeal(Intended, s, price, amount, taker, t, 1).Fail? ==>
      SplitDeal(Intended, s, price, amount, taker, t, 1).error == DivisionByZero
  {
    var rest := amount + s.position;
    var first := DealAt(Intended, s, price, -s.position, taker, t, 0);
    IntendedLegsDoNotSplit(s, price, -s.position, taker, t);
    BranchFailuresAreDivisions(Intended, s, price, -s.position, taker, t);
    if first.Ok? {
      CloseDealPosition(Intended, s, price, -s.position, taker, t);
      IntendedLegsDoNotSplit(first.value.state, price, rest, taker, t);
      BranchFailuresAreDivisions(Intended, first.value.state, price, rest, taker, t);
    }
  }

  /** A fill no larger than the holding, or any fill on a flat ledger, never
      reaches the split under the corrected guard. */
  lemma IntendedLegsDoNotSplit(s: LedgerState, price: real, amount: real, taker: bool, t: int)
    requires Abs(amount) <= Abs(s.position) || s.position == 0.0
    ensures DealAt(Intended, s, price, amount, taker, t, 0) ==
      if Opens(Intended, s.position, amount) then OpenDeal(s, price, amount, taker)
      else CloseDeal(Intended, s, price, amount, taker, t)
  {
  }

  /** A closing fill moves the holding by its amount. */
  lemma CloseDealPosition(rules: Rules, s: LedgerState, price: real, amount: real, taker: bool, t: int)
    requires CloseDeal(rules, s, price, amount, taker, t).Ok?
    ensures CloseDeal(rules, s, price, amount, taker, t).value.state.position == s.position + amount
  {
    var closed := CloseStep(rules, s, price, amount, t).value;
    assert closed.0.position == s.position + amount;
    assert Settle(closed.0, price, amount, taker, closed.1).value.state.position == closed.0.position;
  }

  // ---------------------------------------------------------------------
  // 3. The book walk multiplies the remaining amount.

  /** As written: selling 4 into bids of 2 at 100 and 3 at 99 reports 5
      filled at 99.4, more than was asked. */
  lemma AvgPriceMultipliesExample()
    ensures AvgPrice([DepthUnit(100.0, 2.0, 1), DepthUnit(99.0, 3.0, 1)], 4.0) == (99.4, 5.0)
  {
    var levels := [DepthUnit(100.0, 2.0, 1), DepthUnit(99.0, 3.0, 1)];
    assert AvgWalk(levels, 2, 24.0, 497.0, 5.0) == (497.0, 5.0);
    assert AvgWalk(levels, 1, 8.0, 200.0, 2.0) == (497.0, 5.0);
    assert AvgWalk(levels, 0, 4.0, 0.0, 0.0) == (497.0, 5.0);
  }

  /** Corrected walk: a level that does not cover the rest is consumed and
      its amount SUBTRACTED from what remains. */
  function AvgWalkIntended(levels: seq<DepthUnit>, i: nat, remaining: real, amountMulPrice: real, amountReal: real): (real, real)
    requires i <= |levels|
    decreases |levels| - i
  {
    if i == |levels| then (amountMulPrice, amountReal)
    else if levels[i].amount >= remaining then
      (amountMulPrice + Mul(remaining, levels[i].price), amountReal + remaining)
    else
      AvgWalkIntended(levels, i + 1, remaining - levels[i].amount,
                      amountMulPrice + Mul(levels[i].amount, levels[i].price), amountReal + levels[i].amount)
  }

  function AvgPriceIntended(levels: seq<DepthUnit>, amount: real): (real, real) {
    AvgPriceOf(AvgWalkIntended(levels, 0, amount, 0.0, 0.0))
  }

  function Min(a: real, b: real): real {
    if a <= b then a else b
  }

  /** The corrected walk consumes exactly the request, or the whole side
      when the side holds less. */
  lemma {:induction false} AvgWalkIntendedConsumes(levels: seq<DepthUnit>, i: nat, remaining: real, amp: real, got: real)
    requires i <= |levels| && NonNegativeAmounts(levels) && remaining >= 0.0
    ensures AvgWalkIntended(levels, i, remaining, amp, got).1 == got + Min(remaining, TotalAmount(levels[i..]))
    decreases |levels| - i
  {
    if i == |levels| {
      assert levels[i..] == [];
    } else {
      TotalFront(levels[i..]);
      assert levels[i..][1..] == levels[i + 1..];
      TotalNonNegative(levels[i + 1..]);
      if levels[i].amount < remaining {
        AvgWalkIntendedConsumes(levels, i + 1, remaining - levels[i].amount,
                                amp + Mul(levels[i].amount, levels[i].price), got + levels[i].amount);
      }
    }
  }

  /** The fill the corrected walk reports is the request, capped by the
      side. */
  lemma AvgPriceIntendedFills(levels: seq<DepthUnit>, amount: real)
    requires NonNegativeAmounts(levels) && amount >= 0.0
    ensures AvgPriceIntended(levels, amount).1 == Min(amount, TotalAmount(levels))
  {
    AvgWalkIntendedConsumes(levels, 0, amount, 0.0, 0.0);
    assert levels[0..] == levels;
  }

  /** Corrected, the example fills 4 at 99.5. */
  lemma AvgPriceIntendedExample()
    ensures AvgPriceIntended([DepthUnit(100.0, 2.0, 1), DepthUnit(99.0, 3.0, 1)], 4.0) == (99.5, 4.0)
  {
    var levels := [DepthUnit(100.0, 2.0, 1), DepthUnit(99.0, 3.0, 1)];
    assert AvgWalkIntended(levels, 1, 2.0, 200.0, 2.0) == (398.0, 4.0);
    assert AvgWalkIntended(levels, 0, 4.0, 0.0, 0.0) == (398.0, 4.0);
  }

  // ---------------------------------------------------------------------
  // 4. A liquidation reaches the strategy twice.

  /** As written: with liquidations replayed, one liquidation event makes
      two `OnLiquidation` calls. */
  lemma LiquidationDispatchedTwice(st: ExecState, f: Flags, instId: string, v: Trade)
    requires f.useLiquidations && v.tag == Liquidation
    ensures TradeStep(st, f, instId, v) ==
      Ok(Notify(Notify(st, OnLiquidation(instId, v)), OnLiquidation(instId, v)))
  {
    NotifyAllShort(st, TradeCallbacks(f, instId, v));
  }

  /** Corrected: a replayed trade reaches the strategy once, through the
      callback of its tag. */
  function TradeCallbacksIntended(f: Flags, instId: string, v: Trade): (r: seq<Callback>)
    ensures f.useTrades || f.useLiquidations ==> |r| == 1
    ensures !(f.useTrades || f.useLiquidations) ==> r == []
    ensures |r| == 1 ==> (r[0].OnTrade? <==> v.tag == Normal) && (r[0].OnLiquidation? <==> v.tag == Liquidation)
    ensures |r| == 1 ==> r[0].instId == instId && (r[0].OnTrade? ==> r[0].trade == v) && (r[0].OnLiquidation? ==> r[0].trade == v)
  {
    if f.useTrades || f.useLiquidations then
      match v.tag
      case Normal => [OnTrade(instId, v)]
      case Liquidation => [OnLiquidation(instId, v)]
    else []
  }

  /** The corrected callbacks are the as-written ones without the second
      block's repeat. */
  lemma TradeCallbacksIntendedIsFirstBlock(f: Flags, instId: string, v: Trade)
    ensures f.useLiquidations ==>
      TradeCallbacks(f, instId, v) == TradeCallbacksIntended(f, instId, v) + [OnLiquidation(instId, v)]
    ensures !f.useLiquidations ==> TradeCallbacks(f, instId, v) == TradeCallbacksIntended(f, instId, v)
  {
  }
}
