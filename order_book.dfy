/** The two order-book walks of `Depth`: how much the opposing side can fill
    at a limit price, and the volume-weighted price of filling an amount. */
module OrderBook {
  import opened Wrappers
  import opened Defines

  /** The levels a fill consumes: bids when selling, asks when buying. */
  function Side(d: Depth, isSell: bool): seq<DepthUnit> {
    if isSell then d.bids else d.asks
  }

  /** A level is usable at `price` when it is at least as good as the limit. */
  predicate AtOrBetter(u: DepthUnit, price: real, isSell: bool) {
    if isSell then u.price >= price else u.price <= price
  }

  /** Sum of the amounts of all levels. */
  function TotalAmount(levels: seq<DepthUnit>): real {
    if |levels| == 0 then 0.0 else TotalAmount(levels[..|levels| - 1]) + levels[|levels| - 1].amount
  }

  /** Sum of the amounts of every level that passes the price test. */
  function FillableAmount(levels: seq<DepthUnit>, price: real, isSell: bool): real {
    if |levels| == 0 then 0.0
    else
      var last := levels[|levels| - 1];
      FillableAmount(levels[..|levels| - 1], price, isSell) + (if AtOrBetter(last, price, isSell) then last.amount else 0.0)
  }

  predicate NonNegativeAmounts(levels: seq<DepthUnit>) {
    forall i :: 0 <= i < |levels| ==> levels[i].amount >= 0.0
  }

  /** `Depth.GetMaxAmount`: walks the whole opposing side and adds up every
      level at or better than `price`; a level that fails the test is skipped,
      not a reason to stop. */
  method GetMaxAmount(d: Depth, price: real, isSell: bool) returns (amount: real)
    ensures amount == FillableAmount(Side(d, isSell), price, isSell)
  {
    var dus := if isSell then d.bids else d.asks;
    amount := 0.0;
    var i := 0;
    while i < |dus|
      invariant 0 <= i <= |dus|
      invariant amount == FillableAmount(dus[..i], price, isSell)
    {
      var du := dus[i];
      if (isSell && du.price >= price) || (!isSell && du.price <= price) {
        amount := amount + du.amount;
      }
      assert dus[..i + 1][..i] == dus[..i];
      i := i + 1;
    }
    assert dus[..i] == dus;
  }

  /** With non-negative level amounts the fillable amount lies between zero
      and the whole side. */
  lemma {:induction false} FillableBounds(levels: seq<DepthUnit>, price: real, isSell: bool)
    requires NonNegativeAmounts(levels)
    ensures 0.0 <= FillableAmount(levels, price, isSell) <= TotalAmount(levels)
  {
    if |levels| > 0 {
      FillableBounds(levels[..|levels| - 1], price, isSell);
    }
  }

  /** When every level passes the price test the whole side is fillable. */
  lemma {:induction false} FillableAllPass(levels: seq<DepthUnit>, price: real, isSell: bool)
    requires forall i :: 0 <= i < |levels| ==> AtOrBetter(levels[i], price, isSell)
    ensures FillableAmount(levels, price, isSell) == TotalAmount(levels)
  {
    if |levels| > 0 {
      FillableAllPass(levels[..|levels| - 1], price, isSell);
    }
  }

  /** A looser limit (lower when selling, higher when buying) fills at least
      as much as a stricter one. */
  lemma {:induction false} FillableMonotone(levels: seq<DepthUnit>, strict: real, loose: real, isSell: bool)
    requires NonNegativeAmounts(levels)
    requires if isSell then loose <= strict else strict <= loose
    ensures FillableAmount(levels, strict, isSell) <= FillableAmount(levels, loose, isSell)
  {
    if |levels| > 0 {
      FillableMonotone(levels[..|levels| - 1], strict, loose, isSell);
    }
  }

  /** Selling 99 into bids 100 x 2, 98 x 4, 99 x 3: the 98 level is skipped and
      the walk still reaches the 99 level behind it. */
  lemma MaxAmountExample()
    ensures FillableAmount([DepthUnit(100.0, 2.0, 1), DepthUnit(98.0, 4.0, 1), DepthUnit(99.0, 3.0, 1)], 99.0, true) == 5.0
  {
    var levels := [DepthUnit(100.0, 2.0, 1), DepthUnit(98.0, 4.0, 1), DepthUnit(99.0, 3.0, 1)];
    assert levels[..2] == [DepthUnit(100.0, 2.0, 1), DepthUnit(98.0, 4.0, 1)];
    assert levels[..2][..1] == [DepthUnit(100.0, 2.0, 1)];
    assert [DepthUnit(100.0, 2.0, 1)][..0] == [];
    assert FillableAmount([DepthUnit(100.0, 2.0, 1)], 99.0, true) == 2.0;
    assert FillableAmount(levels[..2], 99.0, true) == 2.0;
  }

  /** The walk of `GetAvgPrice` as the code performs it, from level `i` on,
      with the remaining request and the two accumulators (sum of amount
      times price, sum of amounts consumed).  A level that covers the
      remaining amount ends the walk; otherwise the whole level is consumed
      and the remaining amount is MULTIPLIED by the level's amount. */
  function AvgWalk(levels: seq<DepthUnit>, i: nat, remaining: real, amountMulPrice: real, amountReal: real): (real, real)
    requires i <= |levels|
    decreases |levels| - i
  {
    if i == |levels| then (amountMulPrice, amountReal)
    else if levels[i].amount >= remaining then
      (amountMulPrice + Mul(remaining, levels[i].price), amountReal + remaining)
    else
      AvgWalk(levels, i + 1, Mul(remaining, levels[i].amount),
              amountMulPrice + Mul(levels[i].amount, levels[i].price), amountReal + levels[i].amount)
  }

  /** (average price, amount consumed) from the walk's two sums; the price
      stays 0 unless a positive amount was consumed. */
  function AvgPriceOf(walk: (real, real)): (r: (real, real))
    ensures r.1 == walk.1
    ensures r.1 > 0.0 ==> r.0 * r.1 == walk.0
    ensures r.1 <= 0.0 ==> r.0 == 0.0
  {
    if walk.1 > 0.0 then (walk.0 / walk.1, walk.1) else (0.0, walk.1)
  }

  /** The estimate `GetAvgPrice` returns for a request on one side. */
  function AvgPrice(levels: seq<DepthUnit>, amount: real): (real, real) {
    AvgPriceOf(AvgWalk(levels, 0, amount, 0.0, 0.0))
  }

  /** `Depth.GetAvgPrice`: consumes the side best-first, with no price test. */
  method GetAvgPrice(d: Depth, amount: real, isSell: bool) returns (avgPrice: real, amountReal: real)
    ensures (avgPrice, amountReal) == AvgPrice(Side(d, isSell), amount)
  {
    var dus := if isSell then d.bids else d.asks;
    var remaining := amount;
    var amountMulPrice := 0.0;
    amountReal := 0.0;
    var i := 0;
    while i < |dus|
      invariant 0 <= i <= |dus|
      invariant AvgWalk(dus, i, remaining, amountMulPrice, amountReal) == AvgWalk(dus, 0, amount, 0.0, 0.0)
    {
      var du := dus[i];
      if du.amount >= remaining {
        amountMulPrice := amountMulPrice + Mul(remaining, du.price);
        amountReal := amountReal + remaining;
        remaining := 0.0;
        break;
      } else {
        amountMulPrice := amountMulPrice + Mul(du.amount, du.price);
        amountReal := amountReal + du.amount;
        remaining := Mul(remaining, du.amount);
      }
      i := i + 1;
    }
    avgPrice := 0.0;
    if amountReal > 0.0 {
      avgPrice := amountMulPrice / amountReal;
    }
  }

  /** A best level that covers the whole request fills it at that level's
      price. */
  lemma FirstLevelCovers(levels: seq<DepthUnit>, amount: real)
    requires |levels| > 0 && levels[0].amount >= amount && amount > 0.0
    ensures AvgPrice(levels, amount) == (levels[0].price, amount)
  {
    var walk := AvgWalk(levels, 0, amount, 0.0, 0.0);
    assert walk == (Mul(amount, levels[0].price), amount);
    assert Mul(amount, levels[0].price) / amount == levels[0].price;
  }

  /** An empty side fills nothing and prices at 0. */
  lemma EmptySideFillsNothing(amount: real)
    ensures AvgPrice([], amount) == (0.0, 0.0)
  {
  }

  /** Whatever the walk consumes is a sum of whole levels plus at most the
      covering part of one more: with non-negative level amounts it adds at
      most the total of the levels it has not yet visited. */
  lemma {:induction false} AvgWalkConsumesAtMostSide(levels: seq<DepthUnit>, i: nat, remaining: real, amp: real, got: real)
    requires i <= |levels|
    requires NonNegativeAmounts(levels)
    ensures AvgWalk(levels, i, remaining, amp, got).1 <= got + TotalAmount(levels[i..])
    decreases |levels| - i
  {
    if i < |levels| {
      TotalFront(levels[i..]);
      assert levels[i..][1..] == levels[i + 1..];
      if levels[i].amount < remaining {
        AvgWalkConsumesAtMostSide(levels, i + 1, Mul(remaining, levels[i].amount),
                                  amp + Mul(levels[i].amount, levels[i].price), got + levels[i].amount);
      } else {
        assert levels[i].amount >= remaining;
        TotalNonNegative(levels[i + 1..]);
      }
    }
  }

  /** Summing from the front gives the same total. */
  lemma {:induction false} TotalFront(levels: seq<DepthUnit>)
    requires |levels| > 0
    ensures TotalAmount(levels) == levels[0].amount + TotalAmount(levels[1..])
    decreases |levels|
  {
    if |levels| > 1 {
      var init := levels[..|levels| - 1];
      TotalFront(init);
      assert init[1..] == levels[1..][..|levels[1..]| - 1];
      assert init[0] == levels[0];
    } else {
      assert levels[1..] == [];
      assert levels[..0] == [];
    }
  }

  lemma {:induction false} TotalNonNegative(levels: seq<DepthUnit>)
    requires NonNegativeAmounts(levels)
    ensures TotalAmount(levels) >= 0.0
  {
    if |levels| > 0 {
      TotalNonNegative(levels[..|levels| - 1]);
    }
  }
}
