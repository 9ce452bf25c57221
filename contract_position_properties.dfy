/** What the ledger's transitions promise: the closed forms of its pure
    helpers, the effect of each branch of `Deal`, the invariant every deal
    keeps, and the ways a deal fails as the code is written. */
module ContractPositionProperties {
  import opened Wrappers
  import opened ContractPositions

  // ---------------------------------------------------------------------
  // Pure helpers.

  /** The profit of `calProfit` does not depend on the sign of the amount:
      (open - close) * |amount| for USDT-margined contracts and
      |amount| * (1/close - 1/open), that is |amount| * (open - close) /
      (open * close), for coin-margined ones.  The rate is the price move
      over the open price (USDT) or the close price (coin), the move being
      close - open for a negative amount and open - close otherwise. */
  lemma CalProfitClosedForm(isUsdt: bool, openPx: real, closePx: real, amount: real)
    requires CalProfit(isUsdt, openPx, closePx, amount).Ok?
    ensures var r := CalProfit(isUsdt, openPx, closePx, amount).value;
      var move := if amount < 0.0 then closePx - openPx else openPx - closePx;
      (isUsdt ==> r.0 * openPx == move && r.1 == (openPx - closePx) * Abs(amount)) &&
      (!isUsdt ==> r.0 * closePx == move && r.1 * (openPx * closePx) == (openPx - closePx) * Abs(amount))
  {
    var r := CalProfit(isUsdt, openPx, closePx, amount).value;
    var move := if amount < 0.0 then closePx - openPx else openPx - closePx;
    SignedMove(openPx, closePx, amount, move);
    if isUsdt {
      var rate := Div(move, openPx).value;
      assert r == (rate, Mul(rate, Mul(amount, openPx)));
      UsdtProduct(rate, openPx, amount, move);
    } else {
      var margin := Div(amount, openPx).value;
      var rate := Div(move, closePx).value;
      assert r == (rate, Mul(rate, margin));
      CoinProduct(rate, margin, openPx, closePx, amount, move);
    }
  }

  lemma SignedMove(openPx: real, closePx: real, amount: real, move: real)
    requires move == if amount < 0.0 then closePx - openPx else openPx - closePx
    ensures move * amount == (openPx - closePx) * Abs(amount)
  {
    if amount < 0.0 {
      calc {
        move * amount;
        (closePx - openPx) * amount;
        (openPx - closePx) * (-amount);
      }
    }
  }

  lemma UsdtProduct(rate: real, openPx: real, amount: real, move: real)
    requires rate * openPx == move
    ensures Mul(rate, Mul(amount, openPx)) == move * amount
  {
    calc {
      Mul(rate, Mul(amount, openPx));
      rate * (amount * openPx);
      (rate * openPx) * amount;
    }
  }

  lemma CoinProduct(rate: real, margin: real, openPx: real, closePx: real, amount: real, move: real)
    requires margin * openPx == amount && rate * closePx == move
    ensures Mul(rate, margin) * (openPx * closePx) == move * amount
  {
    calc {
      Mul(rate, margin) * (openPx * closePx);
      (rate * closePx) * (margin * openPx);
    }
  }

  /** The intended profit: closing a long (negative amount) earns
      (close - open) * |amount| (USDT) or |amount| * (close - open) /
      (open * close) (coin); closing a short earns the opposite moves. */
  lemma CalProfitIntendedClosedForm(isUsdt: bool, openPx: real, closePx: real, amount: real)
    requires CalProfitIntended(isUsdt, openPx, closePx, amount).Ok?
    ensures var p := CalProfitIntended(isUsdt, openPx, closePx, amount).value.1;
      var gain := (if amount < 0.0 then closePx - openPx else openPx - closePx) * Abs(amount);
      (isUsdt ==> p == gain) && (!isUsdt ==> p * (openPx * closePx) == gain)
  {
    var r := CalProfit(isUsdt, openPx, closePx, Abs(amount)).value;
    CalProfitClosedForm(isUsdt, openPx, closePx, Abs(amount));
    assert Abs(Abs(amount)) == Abs(amount);
    if amount < 0.0 {
      assert CalProfitIntended(isUsdt, openPx, closePx, amount).value.1 == -r.1;
      assert -r.1 * (openPx * closePx) == -(r.1 * (openPx * closePx));
    }
  }

  /** The fee of a fill depends on its size, not its side. */
  lemma FeeIgnoresSide(cfg: LedgerConfig, price: real, amount: real, taker: bool)
    ensures CalFee(cfg, price, amount, taker) == CalFee(cfg, price, -amount, taker)
  {
    assert Abs(amount) == Abs(-amount);
  }

  /** With no prior holding, a positive fill at a non-zero price averages to
      exactly that price, whatever the prior average was. */
  lemma CalAvgPriceNoPrior(price: real, amountAbs: real, priceAvg: real)
    requires amountAbs > 0.0 && price != 0.0
    ensures CalAvgPrice(price, amountAbs, priceAvg, 0.0) == Ok(price)
  {
    var r := CalAvgPrice(price, amountAbs, priceAvg, 0.0);
    assert amountAbs / price != 0.0;
    assert r.value * (amountAbs / price) == amountAbs;
    assert r.value * amountAbs == price * amountAbs;
  }

  /** Adding a positive fill at a positive price to a positive holding at a
      positive average gives an average between the two prices. */
  lemma CalAvgPriceBetween(price: real, amountAbs: real, priceAvg: real, positionAbs: real)
    requires price > 0.0 && amountAbs > 0.0 && priceAvg > 0.0 && positionAbs > 0.0
    ensures CalAvgPrice(price, amountAbs, priceAvg, positionAbs).Ok?
    ensures var avg := CalAvgPrice(price, amountAbs, priceAvg, positionAbs).value;
      (priceAvg <= price ==> priceAvg <= avg <= price) &&
      (price <= priceAvg ==> price <= avg <= priceAvg)
  {
    var y := positionAbs / priceAvg;
    var z := amountAbs / price;
    assert y > 0.0 && z > 0.0;
    var avg := CalAvgPrice(price, amountAbs, priceAvg, positionAbs).value;
    assert avg * (y + z) == positionAbs + amountAbs;
    assert y * priceAvg == positionAbs && z * price == amountAbs;
    HarmonicBetween(priceAvg, price, y, z, avg);
  }

  /** (y * a + z * b) / (y + z) lies between a and b for positive weights. */
  lemma HarmonicBetween(a: real, b: real, y: real, z: real, avg: real)
    requires y > 0.0 && z > 0.0
    requires avg * (y + z) == y * a + z * b
    ensures a <= b ==> a <= avg <= b
    ensures b <= a ==> b <= avg <= a
  {
    if a <= b {
      assert y * a + z * a <= y * a + z * b <= y * b + z * b;
      assert a * (y + z) <= avg * (y + z) <= b * (y + z);
    } else {
      assert y * b + z * b <= y * a + z * b <= y * a + z * a;
      assert b * (y + z) <= avg * (y + z) <= a * (y + z);
    }
  }

  // ---------------------------------------------------------------------
  // Records.

  function SumProfits(records: seq<ProfitRecord>): real {
    if |records| == 0 then 0.0 else SumProfits(records[..|records| - 1]) + records[|records| - 1].profit
  }

  /** Chained records telescope: the profits of all full closes add up to
      the realized total of the last one. */
  lemma {:induction false} RecordsTelescope(records: seq<ProfitRecord>)
    requires RecordsChained(records)
    ensures SumProfits(records) == (if |records| == 0 then 0.0 else records[|records| - 1].profitTotal)
  {
    if |records| > 1 {
      var init := records[..|records| - 1];
      assert RecordsChained(init) by {
        forall i | 0 < i < |init|
          ensures init[i].profit == init[i].profitTotal - init[i - 1].profitTotal
        {
          assert init[i] == records[i] && init[i - 1] == records[i - 1];
        }
      }
      RecordsTelescope(init);
    } else if |records| == 1 {
      assert records[..0] == [];
    }
  }

  /** A new ledger has nothing to break. */
  lemma FreshIsValid(cfg: LedgerConfig)
    ensures LedgerValid(Fresh(cfg))
    ensures PositionDir(Fresh(cfg)) == DirNone && TotalProfit(Fresh(cfg)) == 0.0 && LastPositionProfit(Fresh(cfg)) == 0.0
  {
  }

  // ---------------------------------------------------------------------
  // The branches of Deal.

  /** Settling a fill charges the fee of `calFee`, adds the notional to the
      volume, folds the fill into the buy totals (positive amount) or the
      sell totals (otherwise), and touches nothing else. */
  lemma SettleEffects(s: LedgerState, price: real, amount: real, taker: bool, profit: real)
    requires Settle(s, price, amount, taker, profit).Ok?
    ensures var out := Settle(s, price, amount, taker, profit).value;
      out.profit == profit &&
      out.fee == CalFee(s.cfg, price, amount, taker).value &&
      out.state.totalFee == s.totalFee + out.fee &&
      out.state.totalVolume == s.totalVolume + Notional(s.cfg.isUsdt, price, amount).value &&
      (amount > 0.0 ==>
        out.state.buyAmountTotal == s.buyAmountTotal + Abs(amount) &&
        out.state.buyPriceAvg == CalAvgPrice(price, Abs(amount), s.buyPriceAvg, s.buyAmountTotal).value &&
        out.state.sellAmountTotal == s.sellAmountTotal && out.state.sellPriceAvg == s.sellPriceAvg) &&
      (amount <= 0.0 ==>
        out.state.sellAmountTotal == s.sellAmountTotal + Abs(amount) &&
        out.state.sellPriceAvg == CalAvgPrice(price, Abs(amount), s.sellPriceAvg, s.sellAmountTotal).value &&
        out.state.buyAmountTotal == s.buyAmountTotal && out.state.buyPriceAvg == s.buyPriceAvg) &&
      out.state.(totalFee := s.totalFee, totalVolume := s.totalVolume,
                 buyAmountTotal := s.buyAmountTotal, buyPriceAvg := s.buyPriceAvg,
                 sellAmountTotal := s.sellAmountTotal, sellPriceAvg := s.sellPriceAvg) == s
  {
  }

  /** Every way a non-splitting fill can fail is a division by zero. */
  lemma BranchFailuresAreDivisions(rules: Rules, s: LedgerState, price: real, amount: real, taker: bool, t: int)
    ensures OpenDeal(s, price, amount, taker).Fail? ==> OpenDeal(s, price, amount, taker).error == DivisionByZero
    ensures CloseDeal(rules, s, price, amount, taker, t).Fail? ==> CloseDeal(rules, s, price, amount, taker, t).error == DivisionByZero
  {
  }

  /** Opening (same non-zero sign as the holding): the position grows by the
      amount, the open price is re-averaged over the larger holding, the
      maximum holding follows the new size, and nothing is realized. */
  lemma OpeningDeal(s: LedgerState, price: real, amount: real, taker: bool, t: int)
    requires Opens(AsWritten, s.position, amount)
    requires DealSpec(s, price, amount, taker, t).Ok?
    ensures var out := DealSpec(s, price, amount, taker, t).value;
      var pos := s.position + amount;
      out.state.position == pos &&
      out.state.avgOpen == CalAvgPrice(price, Abs(amount), s.avgOpen, Abs(s.position)).value &&
      out.state.maxPositionAbs == (if Abs(pos) > s.maxPositionAbs then Abs(pos) else s.maxPositionAbs) &&
      out.state.realizedProfit == s.realizedProfit && out.profit == 0.0 &&
      out.state.profitRecords == s.profitRecords && out.state.avgClose == s.avgClose
  {
    var s1 := OpenStep(s, price, amount).value;
    SettleEffects(s1, price, amount, taker, 0.0);
  }

  /** Closing no more than the holding: the profit of `calProfit` at the
      open average is realized and returned, the position moves by the
      amount, and the close average is re-averaged with everything closed
      since the maximum holding as prior quantity (and reset to 0 on a full
      close). */
  lemma PartialClose(s: LedgerState, price: real, amount: real, taker: bool, t: int)
    requires !Opens(AsWritten, s.position, amount) && Abs(amount) <= Abs(s.position)
    requires DealSpec(s, price, amount, taker, t).Ok?
    ensures var out := DealSpec(s, price, amount, taker, t).value;
      var profit := CalProfit(s.cfg.isUsdt, s.avgOpen, price, amount).value.1;
      out.profit == profit &&
      out.state.realizedProfit == s.realizedProfit + profit &&
      out.state.position == s.position + amount &&
      out.state.maxPositionAbs == s.maxPositionAbs &&
      (s.position + amount != 0.0 ==>
        out.state.avgClose == CalAvgPrice(price, Abs(amount), s.avgClose, s.maxPositionAbs - Abs(s.position)).value &&
        out.state.avgOpen == s.avgOpen && out.state.profitRecords == s.profitRecords)
  {
    var closed := CloseStep(AsWritten, s, price, amount, t).value;
    SettleEffects(closed.0, price, amount, taker, closed.1);
  }

  /** A full close (the holding goes from non-zero to exactly zero) counts
      one clear, appends exactly one record whose total is the realized
      profit and whose profit is the growth since the previous record, and
      resets both averages; the maximum holding is left as it was. */
  lemma FullClose(s: LedgerState, price: real, taker: bool, t: int)
    requires s.position != 0.0
    requires DealSpec(s, price, -s.position, taker, t).Ok?
    ensures var out := DealSpec(s, price, -s.position, taker, t).value;
      var total := out.state.realizedProfit;
      var recs := s.profitRecords;
      out.state.position == 0.0 &&
      out.state.clearCount == s.clearCount + 1 &&
      out.state.profitRecords ==
        recs + [ProfitRecord(if |recs| == 0 then total else total - recs[|recs| - 1].profitTotal, total, t)] &&
      out.state.avgOpen == 0.0 && out.state.avgClose == 0.0 &&
      out.state.maxPositionAbs == s.maxPositionAbs &&
      LastPositionProfit(out.state) == (if |recs| == 0 then total else total - recs[|recs| - 1].profitTotal)
  {
    assert !Opens(AsWritten, s.position, -s.position);
    var closed := CloseStep(AsWritten, s, price, -s.position, t).value;
    SettleEffects(closed.0, price, -s.position, taker, closed.1);
  }

  /** A fill on a flat ledger whose open average is 0 divides by that
      average: directly for a zero amount, and through the zero-amount first
      leg of the split otherwise. */
  lemma {:induction false} FlatLedgerFails(s: LedgerState, price: real, amount: real, taker: bool, t: int, depth: nat)
    requires s.position == 0.0 && s.avgOpen == 0.0
    requires amount == 0.0 || depth >= 1
    ensures DealAt(AsWritten, s, price, amount, taker, t, depth) == Fail(DivisionByZero)
    decreases depth
  {
    if amount != 0.0 {
      assert -s.position == 0.0;
      FlatLedgerFails(s, price, -s.position, taker, t, depth - 1);
    }
  }

  /** As written, every deal on a flat ledger fails, so a ledger created by
      the executor never records a fill. */
  lemma DealFromFlatFails(s: LedgerState, price: real, amount: real, taker: bool, t: int)
    requires LedgerValid(s) && s.position == 0.0
    ensures DealSpec(s, price, amount, taker, t) == Fail(DivisionByZero)
  {
    FlatLedgerFails(s, price, amount, taker, t, MAX_SPLIT_DEPTH);
  }

  /** Closing the whole holding, when it succeeds, leaves a flat ledger
      whose open average has been reset to 0. */
  lemma FullCloseFlattens(rules: Rules, s: LedgerState, price: real, taker: bool, t: int)
    requires s.position != 0.0
    requires CloseDeal(rules, s, price, -s.position, taker, t).Ok?
    ensures var out := CloseDeal(rules, s, price, -s.position, taker, t).value.state;
      out.position == 0.0 && out.avgOpen == 0.0
  {
    var closed := CloseStep(rules, s, price, -s.position, t).value;
    SettleEffects(closed.0, price, -s.position, taker, closed.1);
  }

  /** As written, a reversal fails: the first leg closes the holding and
      resets the open average to 0, and the second leg is then a fill on a
      flat ledger. */
  lemma ReversalFails(s: LedgerState, price: real, amount: real, taker: bool, t: int)
    requires !Opens(AsWritten, s.position, amount) && Abs(amount) > Abs(s.position)
    requires s.position != 0.0 || LedgerValid(s)
    ensures DealSpec(s, price, amount, taker, t) == Fail(DivisionByZero)
  {
    if s.position == 0.0 {
      DealFromFlatFails(s, price, amount, taker, t);
    } else {
      SplitAfterCloseFails(s, price, amount, taker, t, MAX_SPLIT_DEPTH);
    }
  }

  lemma SplitAfterCloseFails(s: LedgerState, price: real, amount: real, taker: bool, t: int, depth: nat)
    requires !Opens(AsWritten, s.position, amount) && Abs(amount) > Abs(s.position)
    requires s.position != 0.0 && depth >= 2
    ensures DealAt(AsWritten, s, price, amount, taker, t, depth) == Fail(DivisionByZero)
  {
    assert DealAt(AsWritten, s, price, amount, taker, t, depth) == SplitDeal(AsWritten, s, price, amount, taker, t, depth);
    FirstLegCloses(s, price, taker, t, depth - 1);
    var first := DealAt(AsWritten, s, price, -s.position, taker, t, depth - 1);
    BranchFailuresAreDivisions(AsWritten, s, price, -s.position, taker, t);
    if first.Ok? {
      FullCloseFlattens(AsWritten, s, price, taker, t);
      FlatLedgerFails(first.value.state, price, amount + s.position, taker, t, depth - 1);
    }
  }

  /** Closing exactly the holding never splits. */
  lemma FirstLegCloses(s: LedgerState, price: real, taker: bool, t: int, depth: nat)
    ensures DealAt(AsWritten, s, price, -s.position, taker, t, depth) == CloseDeal(AsWritten, s, price, -s.position, taker, t)
  {
  }

  /** On a ledger satisfying the invariant the split budget is never the
      reason a deal fails: the only failure is a division by zero. */
  lemma SplitBudgetSuffices(s: LedgerState, price: real, amount: real, taker: bool, t: int)
    requires LedgerValid(s)
    ensures DealSpec(s, price, amount, taker, t).Fail? ==> DealSpec(s, price, amount, taker, t).error == DivisionByZero
  {
    BranchFailuresAreDivisions(AsWritten, s, price, amount, taker, t);
    if !Opens(AsWritten, s.position, amount) && Abs(amount) > Abs(s.position) {
      ReversalFails(s, price, amount, taker, t);
    }
  }

  // ---------------------------------------------------------------------
  // Invariants every deal keeps, under either reading.

  /** Every deal keeps the ledger invariant. */
  lemma {:induction false} DealPreservesValid(rules: Rules, s: LedgerState, price: real, amount: real, taker: bool, t: int, depth: nat)
    requires LedgerValid(s)
    requires DealAt(rules, s, price, amount, taker, t, depth).Ok?
    ensures LedgerValid(DealAt(rules, s, price, amount, taker, t, depth).value.state)
    decreases depth, 1
  {
    if Opens(rules, s.position, amount) {
      OpenDealValid(rules, s, price, amount, taker);
    } else if Abs(amount) > Abs(s.position) {
      SplitDealValid(rules, s, price, amount, taker, t, depth);
    } else {
      CloseDealValid(rules, s, price, amount, taker, t);
    }
  }

  lemma {:induction false} SplitDealValid(rules: Rules, s: LedgerState, price: real, amount: real, taker: bool, t: int, depth: nat)
    requires LedgerValid(s) && depth > 0
    requires SplitDeal(rules, s, price, amount, taker, t, depth).Ok?
    ensures LedgerValid(SplitDeal(rules, s, price, amount, taker, t, depth).value.state)
    decreases depth, 0
  {
    var first := DealAt(rules, s, price, -s.position, taker, t, depth - 1).value;
    DealPreservesValid(rules, s, price, -s.position, taker, t, depth - 1);
    DealPreservesValid(rules, first.state, price, amount + s.position, taker, t, depth - 1);
  }

  /** Settling keeps the invariant: it touches only fees, volumes and the
      buy and sell totals, and those only grow. */
  lemma SettleValid(s: LedgerState, price: real, amount: real, taker: bool, profit: real)
    requires LedgerValid(s)
    requires Settle(s, price, amount, taker, profit).Ok?
    ensures LedgerValid(Settle(s, price, amount, taker, profit).value.state)
  {
    SettleEffects(s, price, amount, taker, profit);
  }

  lemma OpenDealValid(rules: Rules, s: LedgerState, price: real, amount: real, taker: bool)
    requires LedgerValid(s) && Opens(rules, s.position, amount)
    requires OpenDeal(s, price, amount, taker).Ok?
    ensures LedgerValid(OpenDeal(s, price, amount, taker).value.state)
  {
    var s1 := OpenStep(s, price, amount).value;
    assert LedgerValid(s1) by {
      var s0 := if s.position == 0.0 then s.(maxPositionAbs := 0.0, avgClose := 0.0, avgOpen := 0.0) else s;
      assert s1.position == s.position + amount;
      assert s1.maxPositionAbs >= Abs(s1.position);
      assert s1.profitRecords == s.profitRecords && s1.clearCount == s.clearCount;
    }
    SettleValid(s1, price, amount, taker, 0.0);
  }

  lemma CloseDealValid(rules: Rules, s: LedgerState, price: real, amount: real, taker: bool, t: int)
    requires LedgerValid(s) && !Opens(rules, s.position, amount) && Abs(amount) <= Abs(s.position)
    requires CloseDeal(rules, s, price, amount, taker, t).Ok?
    ensures LedgerValid(CloseDeal(rules, s, price, amount, taker, t).value.state)
  {
    var closed := CloseStep(rules, s, price, amount, t).value;
    CloseStepKeepsRecords(rules, s, price, amount, t);
    SettleValid(closed.0, price, amount, taker, closed.1);
  }

  /** The closing branch keeps the invariant: the holding shrinks, and a
      full close appends a record chained to the previous one. */
  lemma CloseStepKeepsRecords(rules: Rules, s: LedgerState, price: real, amount: real, t: int)
    requires LedgerValid(s) && !Opens(rules, s.position, amount) && Abs(amount) <= Abs(s.position)
    requires CloseStep(rules, s, price, amount, t).Ok?
    ensures LedgerValid(CloseStep(rules, s, price, amount, t).value.0)
  {
    var c := CloseStep(rules, s, price, amount, t).value.0;
    assert c.position == s.position + amount;
    assert Abs(c.position) <= Abs(s.position);
    var recs := c.profitRecords;
    if |recs| > |s.profitRecords| {
      forall i | 0 < i < |recs|
        ensures recs[i].profit == recs[i].profitTotal - recs[i - 1].profitTotal
      {
        if i < |s.profitRecords| {
          assert recs[i] == s.profitRecords[i] && recs[i - 1] == s.profitRecords[i - 1];
        }
      }
    }
  }

  // ---------------------------------------------------------------------
  // Update.

  /** `Update` marks the holding to market as the close of the whole
      position at the current price, through `calProfit` as written:
      (open - price) * |position| for USDT-margined contracts. */
  lemma UpdateClosedForm(s: LedgerState, price: real)
    requires UpdateSpec(s, price).Ok?
    ensures var u := UpdateSpec(s, price).value;
      (s.cfg.isUsdt ==> u.unrealizedProfit == (s.avgOpen - price) * Abs(s.position)) &&
      (!s.cfg.isUsdt ==> u.unrealizedProfit * (s.avgOpen * price) == (s.avgOpen - price) * Abs(s.position)) &&
      TotalProfit(u) == s.realizedProfit + u.unrealizedProfit - s.totalFee
  {
    CalProfitClosedForm(s.cfg.isUsdt, s.avgOpen, price, -s.position);
    assert Abs(-s.position) == Abs(s.position);
  }

  /** On a flat ledger satisfying the invariant the open average is 0, so
      `Update` divides by zero. */
  lemma UpdateFlatFails(s: LedgerState, price: real)
    requires LedgerValid(s) && s.position == 0.0
    ensures UpdateSpec(s, price) == Fail(DivisionByZero)
  {
  }
}
