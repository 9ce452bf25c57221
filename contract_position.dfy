/** The simulated contract position: a ledger that records every fill of one
    contract and keeps its average prices, realized profit, fees, volumes and
    the record of every full close. */
module ContractPositions {
  import opened Wrappers

  /** What one full close leaves behind: the profit of that round trip and
      the realized profit so far. */
  datatype ProfitRecord = ProfitRecord(profit: real, profitTotal: real, time: int)

  /** The fields fixed when the ledger is created. */
  datatype LedgerConfig = LedgerConfig(isUsdt: bool, marginCcy: string, feeRateMaker: real, feeRateTaker: real)

  /** Every field of a ledger, as a value. */
  datatype LedgerState = LedgerState(
    cfg: LedgerConfig,
    totalFee: real,
    position: real,
    avgOpen: real,
    avgClose: real,
    realizedProfit: real,
    unrealizedProfit: real,
    unrealizedProfitRatio: real,
    buyAmountTotal: real,
    sellAmountTotal: real,
    buyPriceAvg: real,
    sellPriceAvg: real,
    totalVolume: real,
    clearCount: int,
    profitRecords: seq<ProfitRecord>,
    maxPositionAbs: real)

  /** A freshly created ledger: every amount zero and no records. */
  function Fresh(cfg: LedgerConfig): LedgerState {
    LedgerState(cfg, 0.0, 0.0, 0.0, 0.0, 0.0, 0.0, 0.0, 0.0, 0.0, 0.0, 0.0, 0.0, 0, [], 0.0)
  }

  /** Each record's profit is the growth of the realized total since the
      previous record (the first record's profit is its total). */
  predicate RecordsChained(records: seq<ProfitRecord>) {
    (|records| > 0 ==> records[0].profit == records[0].profitTotal) &&
    forall i :: 0 < i < |records| ==> records[i].profit == records[i].profitTotal - records[i - 1].profitTotal
  }

  /** What every ledger built through the public operations satisfies. */
  predicate LedgerValid(s: LedgerState) {
    (s.position == 0.0 ==> s.avgOpen == 0.0) &&
    s.clearCount == |s.profitRecords| &&
    RecordsChained(s.profitRecords) &&
    s.maxPositionAbs >= Abs(s.position) &&
    s.buyAmountTotal >= 0.0 && s.sellAmountTotal >= 0.0
  }

  // ---------------------------------------------------------------------
  // Pure helpers of the ledger.

  /** `calProfit(openPx, closePx, amount)` as written: the margin is taken
      from the SIGNED closing amount, a negative amount being read as the
      close of a long and a non-negative one as the close of a short.
      Returns (profit rate, profit).  USDT-margined contracts divide by the
      open price only; coin-margined ones also by the close price. */
  function CalProfit(isUsdt: bool, openPx: real, closePx: real, amount: real): (r: Result<(real, real)>)
    ensures r.Ok? <==> openPx != 0.0 && (isUsdt || closePx != 0.0)
    ensures r.Fail? ==> r.error == DivisionByZero
  {
    if isUsdt then
      var margin := Mul(amount, openPx);
      var rate :- Div(if amount < 0.0 then closePx - openPx else openPx - closePx, openPx);
      Ok((rate, Mul(rate, margin)))
    else
      var margin :- Div(amount, openPx);
      var rate :- Div(if amount < 0.0 then closePx - openPx else openPx - closePx, closePx);
      Ok((rate, Mul(rate, margin)))
  }

  /** The profit the code evidently intends: the margin is taken from the
      closed QUANTITY, so closing a long earns when the price rose and
      closing a short earns when it fell. */
  function CalProfitIntended(isUsdt: bool, openPx: real, closePx: real, amount: real): (r: Result<(real, real)>)
    ensures r.Ok? <==> openPx != 0.0 && (isUsdt || closePx != 0.0)
    ensures r.Fail? ==> r.error == DivisionByZero
  {
    var r :- CalProfit(isUsdt, openPx, closePx, Abs(amount));
    if amount < 0.0 then Ok((-r.0, -r.1)) else Ok(r)
  }

  /** The traded notional in margin currency: quantity times price for
      USDT-margined contracts, quantity over price for coin-margined ones. */
  function Notional(isUsdt: bool, price: real, amount: real): (r: Result<real>)
    ensures r.Ok? <==> isUsdt || price != 0.0
    ensures r.Fail? ==> r.error == DivisionByZero
    ensures r.Ok? && isUsdt ==> r.value == Abs(amount) * price
    ensures r.Ok? && !isUsdt ==> r.value * price == Abs(amount)
  {
    if isUsdt then Ok(Mul(Abs(amount), price)) else Div(Abs(amount), price)
  }

  function FeeRate(cfg: LedgerConfig, taker: bool): real {
    if taker then cfg.feeRateTaker else cfg.feeRateMaker
  }

  /** `calFee`: the fee rate of the order type applied to the notional. */
  function CalFee(cfg: LedgerConfig, price: real, amount: real, taker: bool): (r: Result<real>)
    ensures r.Ok? <==> cfg.isUsdt || price != 0.0
    ensures r.Fail? ==> r.error == DivisionByZero
    ensures r.Ok? ==> r.value == Notional(cfg.isUsdt, price, amount).value * FeeRate(cfg, taker)
  {
    var n :- Notional(cfg.isUsdt, price, amount);
    Ok(Mul(n, FeeRate(cfg, taker)))
  }

  /** The coin-denominated weight of the holding before a fill: quantity
      over average price, or nothing when either is not positive. */
  function PriorWeight(positionAbs: real, priceAvg: real): (r: real)
    ensures positionAbs > 0.0 && priceAvg > 0.0 ==> r * priceAvg == positionAbs
    ensures !(positionAbs > 0.0 && priceAvg > 0.0) ==> r == 0.0
  {
    if positionAbs > 0.0 && priceAvg > 0.0 then positionAbs / priceAvg else 0.0
  }

  /** `calAvgPrice`: the average price after a fill, as a harmonic
      (quantity-over-price) weighted average of the holding and the fill. */
  function CalAvgPrice(price: real, amountAbs: real, priceAvg: real, positionAbs: real): (r: Result<real>)
    ensures r.Ok? <==> price != 0.0 && PriorWeight(positionAbs, priceAvg) + amountAbs / price != 0.0
    ensures r.Fail? ==> r.error == DivisionByZero
    ensures r.Ok? ==> r.value * (PriorWeight(positionAbs, priceAvg) + amountAbs / price) == positionAbs + amountAbs
  {
    var x := positionAbs + amountAbs;
    var y := PriorWeight(positionAbs, priceAvg);
    var z :- Div(amountAbs, price);
    Div(x, y + z)
  }

  datatype OrderDir = DirBuy | DirSell | DirNone

  /** `PositionDir`: the side of the holding. */
  function PositionDir(s: LedgerState): (r: OrderDir)
    ensures r == DirBuy <==> s.position > 0.0
    ensures r == DirSell <==> s.position < 0.0
    ensures r == DirNone <==> s.position == 0.0
  {
    if s.position > 0.0 then DirBuy else if s.position < 0.0 then DirSell else DirNone
  }

  /** `TotalProfit`: realized plus unrealized profit, net of fees. */
  function TotalProfit(s: LedgerState): real {
    s.realizedProfit + s.unrealizedProfit - s.totalFee
  }

  /** `LastPositionProfit`: the profit of the latest full close, 0 before the
      first one. */
  function LastPositionProfit(s: LedgerState): (r: real)
    ensures |s.profitRecords| == 0 ==> r == 0.0
    ensures |s.profitRecords| > 0 ==> r == s.profitRecords[|s.profitRecords| - 1].profit
  {
    if |s.profitRecords| == 0 then 0.0 else s.profitRecords[|s.profitRecords| - 1].profit
  }

  // ---------------------------------------------------------------------
  // Deal and Update as state transitions.

  /** Which reading of the ledger a transition follows: the code as written,
      or with the two corrections (a fill on a flat ledger opens a position;
      the closing profit uses the closed quantity). */
  datatype Rules = AsWritten | Intended

  /** The guard that sends a fill to the opening branch. */
  predicate Opens(rules: Rules, position: real, amount: real) {
    match rules
    case AsWritten => (amount > 0.0 && position > 0.0) || (amount < 0.0 && position < 0.0)
    case Intended => (amount > 0.0 && position >= 0.0) || (amount < 0.0 && position <= 0.0)
  }

  function ClosingProfit(rules: Rules, isUsdt: bool, openPx: real, closePx: real, amount: real): Result<(real, real)> {
    match rules
    case AsWritten => CalProfit(isUsdt, openPx, closePx, amount)
    case Intended => CalProfitIntended(isUsdt, openPx, closePx, amount)
  }

  /** The result of one recorded fill: the new ledger, the fee it charged and
      the profit it realized. */
  datatype DealOutcome = DealOutcome(state: LedgerState, fee: real, profit: real)

  /** The budget of nested reversal splits.  Two levels are all a ledger
      satisfying `LedgerValid` can use; past it the code would recurse
      without end. */
  const MAX_SPLIT_DEPTH: nat := 2

  /** How a fill moves the totals: realized profit by the fill's profit and
      the fee total by its fee, while the unrealized profit and the
      configuration stay. */
  predicate Moves(s: LedgerState, out: DealOutcome) {
    out.state.realizedProfit == s.realizedProfit + out.profit &&
    out.state.totalFee == s.totalFee + out.fee &&
    out.state.unrealizedProfit == s.unrealizedProfit &&
    out.state.cfg == s.cfg
  }

  /** The bookkeeping every non-splitting fill ends with: fee, buy or sell
      totals and averages, and volume. */
  function Settle(s: LedgerState, price: real, amount: real, taker: bool, profit: real): (r: Result<DealOutcome>)
    ensures r.Ok? ==> r.value.profit == profit && r.value.state.realizedProfit == s.realizedProfit
    ensures r.Ok? ==> r.value.state.totalFee == s.totalFee + r.value.fee
    ensures r.Ok? ==> r.value.state.unrealizedProfit == s.unrealizedProfit && r.value.state.cfg == s.cfg
  {
    var amountAbs := Abs(amount);
    var fee :- CalFee(s.cfg, price, amount, taker);
    var s1 := s.(totalFee := s.totalFee + fee);
    var s2 :-
      if amount > 0.0 then
        var avg :- CalAvgPrice(price, amountAbs, s1.buyPriceAvg, s1.buyAmountTotal);
        Ok(s1.(buyPriceAvg := avg, buyAmountTotal := s1.buyAmountTotal + amountAbs))
      else
        var avg :- CalAvgPrice(price, amountAbs, s1.sellPriceAvg, s1.sellAmountTotal);
        Ok(s1.(sellPriceAvg := avg, sellAmountTotal := s1.sellAmountTotal + amountAbs));
    var volume := Notional(s.cfg.isUsdt, price, amount).value;
    Ok(DealOutcome(s2.(totalVolume := s2.totalVolume + volume), fee, profit))
  }

  /** The record a full close appends, and the reset of both averages. */
  function RecordClose(s: LedgerState, t: int): LedgerState {
    var total := s.realizedProfit;
    var profit := if |s.profitRecords| == 0 then total else total - s.profitRecords[|s.profitRecords| - 1].profitTotal;
    s.(clearCount := s.clearCount + 1,
       profitRecords := s.profitRecords + [ProfitRecord(profit, total, t)],
       avgClose := 0.0, avgOpen := 0.0)
  }

  /** The opening branch of `Deal`: re-average the open price over the
      larger holding, move the position, raise the maximum holding.  On a
      flat ledger the averages and the maximum are reset first. */
  function OpenStep(s: LedgerState, price: real, amount: real): (r: Result<LedgerState>)
    ensures r.Ok? ==> r.value.realizedProfit == s.realizedProfit && r.value.totalFee == s.totalFee
    ensures r.Ok? ==> r.value.unrealizedProfit == s.unrealizedProfit && r.value.cfg == s.cfg
  {
    var s0 := if s.position == 0.0 then s.(maxPositionAbs := 0.0, avgClose := 0.0, avgOpen := 0.0) else s;
    var avg :- CalAvgPrice(price, Abs(amount), s0.avgOpen, Abs(s.position));
    var pos := s0.position + amount;
    Ok(s0.(avgOpen := avg, position := pos,
           maxPositionAbs := if Abs(pos) > s0.maxPositionAbs then Abs(pos) else s0.maxPositionAbs))
  }

  /** The closing branch of `Deal` for |amount| <= |position|: realize the
      profit, re-average the close price over everything closed since the
      maximum holding, move the position, and record a full close.  Returns
      the new ledger and the realized profit. */
  function CloseStep(rules: Rules, s: LedgerState, price: real, amount: real, t: int): (r: Result<(LedgerState, real)>)
    ensures r.Ok? ==> r.value.0.realizedProfit == s.realizedProfit + r.value.1 && r.value.0.totalFee == s.totalFee
    ensures r.Ok? ==> r.value.0.unrealizedProfit == s.unrealizedProfit && r.value.0.cfg == s.cfg
  {
    var pr :- ClosingProfit(rules, s.cfg.isUsdt, s.avgOpen, price, amount);
    var closedAbs := s.maxPositionAbs - Abs(s.position);
    var avgClose :- CalAvgPrice(price, Abs(amount), s.avgClose, closedAbs);
    var pos := s.position + amount;
    var s1 := s.(realizedProfit := s.realizedProfit + pr.1, avgClose := avgClose, position := pos);
    Ok((if s.position != 0.0 && pos == 0.0 then RecordClose(s1, t) else s1, pr.1))
  }

  /** `Deal(price, amount, taker, t)`: record one fill (positive amount buys,
      negative sells), with `depth` reversal splits still allowed.  A fill
      larger than an opposite holding is split into the close of the whole
      holding and the rest. */
  function DealAt(rules: Rules, s: LedgerState, price: real, amount: real, taker: bool, t: int, depth: nat): (r: Result<DealOutcome>)
    ensures r.Ok? ==> Moves(s, r.value)
    decreases depth, 1
  {
    if Opens(rules, s.position, amount) then OpenDeal(s, price, amount, taker)
    else if Abs(amount) > Abs(s.position) then
      if depth == 0 then Fail(SplitDepthExceeded) else SplitDeal(rules, s, price, amount, taker, t, depth)
    else CloseDeal(rules, s, price, amount, taker, t)
  }

  /** A fill taken by the opening branch. */
  function OpenDeal(s: LedgerState, price: real, amount: real, taker: bool): (r: Result<DealOutcome>)
    ensures r.Ok? ==> Moves(s, r.value)
  {
    var s1 :- OpenStep(s, price, amount);
    Settle(s1, price, amount, taker, 0.0)
  }

  /** A fill no larger than an opposite holding. */
  function CloseDeal(rules: Rules, s: LedgerState, price: real, amount: real, taker: bool, t: int): (r: Result<DealOutcome>)
    ensures r.Ok? ==> Moves(s, r.value)
  {
    var closed :- CloseStep(rules, s, price, amount, t);
    Settle(closed.0, price, amount, taker, closed.1)
  }

  /** The reversal split: `Deal(-position)` then `Deal(amount + position)`,
      with fees and profits summed and nothing settled by the outer call. */
  function SplitDeal(rules: Rules, s: LedgerState, price: real, amount: real, taker: bool, t: int, depth: nat): (r: Result<DealOutcome>)
    requires depth > 0
    ensures r.Ok? ==> Moves(s, r.value)
    decreases depth, 0
  {
    var first :- DealAt(rules, s, price, -s.position, taker, t, depth - 1);
    var second :- DealAt(rules, first.state, price, amount + s.position, taker, t, depth - 1);
    Ok(DealOutcome(second.state, first.fee + second.fee, first.profit + second.profit))
  }

  /** A top-level `Deal` as the code performs it. */
  function DealSpec(s: LedgerState, price: real, amount: real, taker: bool, t: int): (r: Result<DealOutcome>)
    ensures r.Ok? ==> TotalProfit(r.value.state) == TotalProfit(s) + r.value.profit - r.value.fee
  {
    DealAt(AsWritten, s, price, amount, taker, t, MAX_SPLIT_DEPTH)
  }

  /** `Update(currentPrice)`: the unrealized profit and its rate, computed as
      if the whole holding were closed at `currentPrice`. */
  function UpdateSpec(s: LedgerState, currentPrice: real): (r: Result<LedgerState>)
    ensures r.Ok? <==> CalProfit(s.cfg.isUsdt, s.avgOpen, currentPrice, -s.position).Ok?
    ensures r.Ok? ==> r.value == s.(unrealizedProfitRatio := CalProfit(s.cfg.isUsdt, s.avgOpen, currentPrice, -s.position).value.0,
                                    unrealizedProfit := CalProfit(s.cfg.isUsdt, s.avgOpen, currentPrice, -s.position).value.1)
  {
    var pr :- CalProfit(s.cfg.isUsdt, s.avgOpen, currentPrice, -s.position);
    Ok(s.(unrealizedProfitRatio := pr.0, unrealizedProfit := pr.1))
  }

  // ---------------------------------------------------------------------
  // The ledger object.

  /** `ContractPosition`: one ledger per contract, updated in place by the
      executor.  The log switch of the Go code only prints and is not
      kept. */
  class ContractPosition {
    const isUsdt: bool
    const marginCcy: string
    const feeRateMaker: real
    const feeRateTaker: real
    var totalFee: real
    var position: real
    var avgOpen: real
    var avgClose: real
    var realizedProfit: real
    var unrealizedProfit: real
    var unrealizedProfitRatio: real
    var buyAmountTotal: real
    var sellAmountTotal: real
    var buyPriceAvg: real
    var sellPriceAvg: real
    var totalVolume: real
    var clearCount: int
    var profitRecords: seq<ProfitRecord>
    var maxPositionAbs: real

    /** The ledger's fields as a value. */
    function Snapshot(): LedgerState
      reads this
    {
      LedgerState(LedgerConfig(isUsdt, marginCcy, feeRateMaker, feeRateTaker),
                  totalFee, position, avgOpen, avgClose, realizedProfit, unrealizedProfit,
                  unrealizedProfitRatio, buyAmountTotal, sellAmountTotal, buyPriceAvg,
                  sellPriceAvg, totalVolume, clearCount, profitRecords, maxPositionAbs)
    }

    ghost predicate Valid()
      reads this
    {
      LedgerValid(Snapshot())
    }

    /** `NewContractPosition`. */
    constructor (feeRateMaker: real, feeRateTaker: real, isUsdt: bool, marginCcy: string)
      ensures Snapshot() == Fresh(LedgerConfig(isUsdt, marginCcy, feeRateMaker, feeRateTaker))
      ensures Valid()
    {
      this.isUsdt := isUsdt;
      this.marginCcy := marginCcy;
      this.feeRateMaker := feeRateMaker;
      this.feeRateTaker := feeRateTaker;
      totalFee, position, avgOpen, avgClose := 0.0, 0.0, 0.0, 0.0;
      realizedProfit, unrealizedProfit, unrealizedProfitRatio := 0.0, 0.0, 0.0;
      buyAmountTotal, sellAmountTotal, buyPriceAvg, sellPriceAvg := 0.0, 0.0, 0.0, 0.0;
      totalVolume, clearCount, profitRecords, maxPositionAbs := 0.0, 0, [], 0.0;
    }

    /** `Deal`: records one fill and returns (fee charged, profit realized). */
    method Deal(price: real, amount: real, taker: bool, t: int) returns (r: Result<(real, real)>)
      modifies this
      ensures DealSpec(old(Snapshot()), price, amount, taker, t).Ok? <==> r.Ok?
      ensures r.Ok? ==>
        var out := DealSpec(old(Snapshot()), price, amount, taker, t).value;
        Snapshot() == out.state && r.value == (out.fee, out.profit)
      ensures r.Fail? ==> r.error == DealSpec(old(Snapshot()), price, amount, taker, t).error
    {
      r := DealWithin(price, amount, taker, t, MAX_SPLIT_DEPTH);
    }

    /** The body of `Deal`, with `depth` reversal splits still allowed. */
    method DealWithin(price: real, amount: real, taker: bool, t: int, depth: nat) returns (r: Result<(real, real)>)
      modifies this
      decreases depth, 1
      ensures DealAt(AsWritten, old(Snapshot()), price, amount, taker, t, depth).Ok? <==> r.Ok?
      ensures r.Ok? ==>
        var out := DealAt(AsWritten, old(Snapshot()), price, amount, taker, t, depth).value;
        Snapshot() == out.state && r.value == (out.fee, out.profit)
      ensures r.Fail? ==> r.error == DealAt(AsWritten, old(Snapshot()), price, amount, taker, t, depth).error
    {
      if (amount > 0.0 && position > 0.0) || (amount < 0.0 && position < 0.0) {
        var unit :- OpenPosition(price, amount);
        r := SettleFill(price, amount, taker, 0.0);
      } else if Abs(amount) > Abs(position) {
        if depth == 0 {
          return Fail(SplitDepthExceeded);
        }
        r := SplitFill(price, amount, taker, t, depth);
      } else {
        var profit :- ClosePosition(price, amount, t);
        r := SettleFill(price, amount, taker, profit);
      }
    }

    /** The reversal split: close the whole holding, then fill the rest. */
    method SplitFill(price: real, amount: real, taker: bool, t: int, depth: nat) returns (r: Result<(real, real)>)
      requires depth > 0
      modifies this
      decreases depth, 0
      ensures SplitDeal(AsWritten, old(Snapshot()), price, amount, taker, t, depth).Ok? <==> r.Ok?
      ensures r.Ok? ==>
        var out := SplitDeal(AsWritten, old(Snapshot()), price, amount, taker, t, depth).value;
        Snapshot() == out.state && r.value == (out.fee, out.profit)
      ensures r.Fail? ==> r.error == SplitDeal(AsWritten, old(Snapshot()), price, amount, taker, t, depth).error
    {
      var amount0 := -position;
      var amount1 := amount + position;
      var r0 :- DealWithin(price, amount0, taker, t, depth - 1);
      var r1 :- DealWithin(price, amount1, taker, t, depth - 1);
      return Ok((r0.0 + r1.0, r0.1 + r1.1));
    }

    /** The opening branch.  The reset the Go code performs for a flat
        ledger cannot be reached under its own guard and is not repeated. */
    method OpenPosition(price: real, amount: real) returns (r: Result<()>)
      requires Opens(AsWritten, position, amount)
      modifies this
      ensures OpenStep(old(Snapshot()), price, amount).Ok? <==> r.Ok?
      ensures r.Ok? ==> Snapshot() == OpenStep(old(Snapshot()), price, amount).value
      ensures r.Fail? ==> r.error == OpenStep(old(Snapshot()), price, amount).error
    {
      var amountAbs := Abs(amount);
      var positionAbs := Abs(position);
      var avg :- CalAvgPrice(price, amountAbs, avgOpen, positionAbs);
      avgOpen := avg;
      position := position + amount;
      positionAbs := Abs(position);
      if positionAbs > maxPositionAbs {
        maxPositionAbs := positionAbs;
      }
      r := Ok(());
    }

    /** The closing branch for a fill no larger than the holding; returns the
        realized profit. */
    method ClosePosition(price: real, amount: real, t: int) returns (r: Result<real>)
      modifies this`realizedProfit, this`avgClose, this`avgOpen, this`position, this`clearCount, this`profitRecords
      ensures CloseStep(AsWritten, old(Snapshot()), price, amount, t).Ok? <==> r.Ok?
      ensures r.Ok? ==>
        var out := CloseStep(AsWritten, old(Snapshot()), price, amount, t).value;
        Snapshot() == out.0 && r.value == out.1
      ensures r.Fail? ==> r.error == CloseStep(AsWritten, old(Snapshot()), price, amount, t).error
    {
      var amountAbs := Abs(amount);
      var positionAbs := Abs(position);
      var pr :- CalProfit(isUsdt, avgOpen, price, amount);
      realizedProfit := realizedProfit + pr.1;
      var closedAbs := maxPositionAbs - positionAbs;
      var avgC :- CalAvgPrice(price, amountAbs, avgClose, closedAbs);
      avgClose := avgC;
      var posOrigin := position;
      position := position + amount;
      if (posOrigin > 0.0 && position == 0.0) || (posOrigin < 0.0 && position == 0.0) {
        MarkClose(t);
      }
      r := Ok(pr.1);
    }

    /** A full close: count it, record the profit since the previous record,
        reset both averages. */
    method MarkClose(t: int)
      modifies this`clearCount, this`profitRecords, this`avgClose, this`avgOpen
      ensures Snapshot() == RecordClose(old(Snapshot()), t)
    {
      clearCount := clearCount + 1;
      var total := realizedProfit;
      var recProfit := if |profitRecords| == 0 then total else total - profitRecords[|profitRecords| - 1].profitTotal;
      profitRecords := profitRecords + [ProfitRecord(recProfit, total, t)];
      avgClose := 0.0;
      avgOpen := 0.0;
    }

    /** Fee, buy or sell totals and averages, and volume of a fill that did
        not split. */
    method SettleFill(price: real, amount: real, taker: bool, profit: real) returns (r: Result<(real, real)>)
      modifies this`totalFee, this`buyPriceAvg, this`buyAmountTotal, this`sellPriceAvg, this`sellAmountTotal, this`totalVolume
      ensures Settle(old(Snapshot()), price, amount, taker, profit).Ok? <==> r.Ok?
      ensures r.Ok? ==>
        var out := Settle(old(Snapshot()), price, amount, taker, profit).value;
        Snapshot() == out.state && r.value == (out.fee, out.profit)
      ensures r.Fail? ==> r.error == Settle(old(Snapshot()), price, amount, taker, profit).error
    {
      var amountAbs := Abs(amount);
      var fee :- CalFee(LedgerConfig(isUsdt, marginCcy, feeRateMaker, feeRateTaker), price, amount, taker);
      totalFee := totalFee + fee;
      if amount > 0.0 {
        var avg :- CalAvgPrice(price, amountAbs, buyPriceAvg, buyAmountTotal);
        buyPriceAvg := avg;
        buyAmountTotal := buyAmountTotal + amountAbs;
      } else {
        var avg :- CalAvgPrice(price, amountAbs, sellPriceAvg, sellAmountTotal);
        sellPriceAvg := avg;
        sellAmountTotal := sellAmountTotal + amountAbs;
      }
      if isUsdt {
        totalVolume := totalVolume + Mul(amountAbs, price);
      } else {
        totalVolume := totalVolume + amountAbs / price;
      }
      r := Ok((fee, profit));
    }

    /** `Update(currentPrice)`: refreshes the unrealized profit and rate. */
    method Update(currentPrice: real) returns (r: Result<()>)
      modifies this
      ensures UpdateSpec(old(Snapshot()), currentPrice).Ok? <==> r.Ok?
      ensures r.Ok? ==> Snapshot() == UpdateSpec(old(Snapshot()), currentPrice).value
      ensures r.Fail? ==> r.error == UpdateSpec(old(Snapshot()), currentPrice).error
    {
      var pr :- CalProfit(isUsdt, avgOpen, currentPrice, -position);
      unrealizedProfitRatio := pr.0;
      unrealizedProfit := pr.1;
      r := Ok(());
    }
  }
}
