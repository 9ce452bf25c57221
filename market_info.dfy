/** The replay feed: the event type the executor walks through, what the
    local data store answers, the coverage check each kind of data must
    pass, the conversion of loaded records into events, the instrument index
    map, the choice of price source and the final ordering by time. */
module MarketInfo {
  import opened Wrappers
  import opened Defines

  // ---------------------------------------------------------------------
  // Events.

  /** The payload of one event: one of the four record types. */
  datatype MarketData =
    | TickerData(ticker: Ticker)
    | DepthData(depth: Depth)
    | TradeData(trade: Trade)
    | KlineData(kline: KlineUnit)

  /** `marketInfoUnit`: an event names its instrument by index into the
      executor's instrument list and carries its own time. */
  datatype MarketInfoUnit = MarketInfoUnit(instIdIndex: int, time: int, data: MarketData)

  function RecordTime(d: MarketData): int {
    match d
    case TickerData(t) => t.time
    case DepthData(v) => v.time
    case TradeData(t) => t.time
    case KlineData(k) => k.time
  }

  /** Which kinds are replayed and which one drives the latest price. */
  datatype Flags = Flags(useTicker: bool, useDepth: bool, useTrades: bool, useLiquidations: bool, useKline: bool,
                         pxbyTicker: bool, pxbyDepth: bool, pxbyTrades: bool, pxbyKline: bool)

  const NO_FLAGS: Flags := Flags(false, false, false, false, false, false, false, false, false)

  // ---------------------------------------------------------------------
  // The local data store, as the answers it gives for one exchange and one
  // window [t0, t1].

  datatype TimeRange = TimeRange(tmin: int, tmax: int)

  datatype LocalData = LocalData(
    tickerIds: seq<string>, tickerRanges: map<string, TimeRange>, tickers: map<string, seq<Ticker>>,
    depthIds: seq<string>, depthRanges: map<string, TimeRange>, depths: map<string, seq<Depth>>,
    tradeIds: seq<string>, tradeRanges: map<string, TimeRange>, trades: map<string, seq<Trade>>,
    liquidations: map<string, seq<Trade>>,
    klineIds: map<int, seq<string>>, klineRanges: map<(string, int), TimeRange>,
    klines: map<(string, int), seq<KlineUnit>>)

  /** The arguments of `LoadMarketInfo` apart from the exchange, which only
      selects the local data. */
  datatype LoadRequest = LoadRequest(instIds: seq<string>, t0: int, t1: int,
                                     ticker: bool, depth: bool, trades: bool, liquidations: bool,
                                     klineIntervalSec: int)

  datatype Kind = Tickers | Depths | Trades | Liquidations | Klines

  /** The order in which the kinds are loaded. */
  const LOAD_ORDER: seq<Kind> := [Tickers, Depths, Trades, Liquidations, Klines]

  predicate Requested(req: LoadRequest, kind: Kind) {
    match kind
    case Tickers => req.ticker
    case Depths => req.depth
    case Trades => req.trades
    case Liquidations => req.liquidations
    case Klines => req.klineIntervalSec > 0
  }

  // ---------------------------------------------------------------------
  // Coverage.

  /** One instrument has data of a kind for the whole window: it is listed,
      its range is known, the range starts no later than t0 and ends no
      earlier than t1. */
  predicate Covers(valid: seq<string>, ranges: map<string, TimeRange>, instId: string, t0: int, t1: int) {
    instId in valid && instId in ranges && !(ranges[instId].tmin > t0) && !(ranges[instId].tmax < t1)
  }

  /** The same for klines, where the listed ids depend on the interval and
      an interval the store does not know fails. */
  predicate KlineCovers(local: LocalData, instId: string, interval: int, t0: int, t1: int) {
    interval in local.klineIds && instId in local.klineIds[interval] &&
    (instId, interval) in local.klineRanges &&
    !(local.klineRanges[(instId, interval)].tmin > t0) && !(local.klineRanges[(instId, interval)].tmax < t1)
  }

  /** Whether a kind passes its coverage check for every requested
      instrument.  Liquidations are never checked. */
  predicate Covered(req: LoadRequest, local: LocalData, kind: Kind) {
    match kind
    case Tickers => forall i :: 0 <= i < |req.instIds| ==> Covers(local.tickerIds, local.tickerRanges, req.instIds[i], req.t0, req.t1)
    case Depths => forall i :: 0 <= i < |req.instIds| ==> Covers(local.depthIds, local.depthRanges, req.instIds[i], req.t0, req.t1)
    case Trades => forall i :: 0 <= i < |req.instIds| ==> Covers(local.tradeIds, local.tradeRanges, req.instIds[i], req.t0, req.t1)
    case Liquidations => true
    case Klines => forall i :: 0 <= i < |req.instIds| ==> KlineCovers(local, req.instIds[i], req.klineIntervalSec, req.t0, req.t1)
  }

  /** The check loop of `loadTickers`, `loadDepths` and `loadTrades`: the
      first instrument that is not covered stops the load. */
  method CheckCoverage(instIds: seq<string>, valid: seq<string>, ranges: map<string, TimeRange>, t0: int, t1: int) returns (ok: bool)
    ensures ok <==> forall i :: 0 <= i < |instIds| ==> Covers(valid, ranges, instIds[i], t0, t1)
  {
    for i := 0 to |instIds|
      invariant forall j :: 0 <= j < i ==> Covers(valid, ranges, instIds[j], t0, t1)
    {
      var instId := instIds[i];
      if instId in valid {
        if instId in ranges {
          var r := ranges[instId];
          if r.tmin > t0 || r.tmax < t1 {
            return false;
          }
        } else {
          return false;
        }
      } else {
        return false;
      }
    }
    return true;
  }

  /** The check loop of `loadKlines`. */
  method CheckKlineCoverage(instIds: seq<string>, local: LocalData, interval: int, t0: int, t1: int) returns (ok: bool)
    ensures ok <==> forall i :: 0 <= i < |instIds| ==> KlineCovers(local, instIds[i], interval, t0, t1)
  {
    for i := 0 to |instIds|
      invariant forall j :: 0 <= j < i ==> KlineCovers(local, instIds[j], interval, t0, t1)
    {
      var instId := instIds[i];
      if interval in local.klineIds {
        if instId in local.klineIds[interval] {
          if (instId, interval) in local.klineRanges {
            var r := local.klineRanges[(instId, interval)];
            if r.tmin > t0 || r.tmax < t1 {
              return false;
            }
          } else {
            return false;
          }
        } else {
          return false;
        }
      } else {
        return false;
      }
    }
    return true;
  }

  /** The interval is only checked inside the per-instrument loop: with no
      instruments an interval the store does not know passes. */
  lemma KlineCheckSkipsIntervalWithoutIds(req: LoadRequest, local: LocalData)
    requires |req.instIds| == 0
    ensures Covered(req, local, Klines)
  {
  }

  /** With instruments, an unknown interval always fails. */
  lemma UnknownIntervalFails(req: LoadRequest, local: LocalData)
    requires |req.instIds| > 0 && req.klineIntervalSec !in local.klineIds
    ensures !Covered(req, local, Klines)
  {
    assert !KlineCovers(local, req.instIds[0], req.klineIntervalSec, req.t0, req.t1);
  }

  // ---------------------------------------------------------------------
  // Load stages.

  /** Every requested kind before position `k` of the load order passed its
      check, so the load reaches the kind at `k`. */
  predicate PassedUpTo(req: LoadRequest, local: LocalData, k: nat)
    requires k <= |LOAD_ORDER|
  {
    k == 0 ||
    (PassedUpTo(req, local, k - 1) && (!Requested(req, LOAD_ORDER[k - 1]) || Covered(req, local, LOAD_ORDER[k - 1])))
  }

  function KindIndex(kind: Kind): (k: nat)
    ensures k < |LOAD_ORDER| && LOAD_ORDER[k] == kind
  {
    match kind
    case Tickers => 0
    case Depths => 1
    case Trades => 2
    case Liquidations => 3
    case Klines => 4
  }

  /** A kind is loaded when it is requested, every earlier requested kind
      passed, and its own check passes. */
  predicate Loads(req: LoadRequest, local: LocalData, kind: Kind) {
    PassedUpTo(req, local, KindIndex(kind)) && Requested(req, kind) && Covered(req, local, kind)
  }

  /** The use flags after the loads, and the price source when every
      requested kind passed.  Flags are only ever raised. */
  function LoadFlags(req: LoadRequest, local: LocalData, f: Flags): Flags {
    var staged := StagedFlags(req, local, f, |LOAD_ORDER|);
    if PassedUpTo(req, local, |LOAD_ORDER|) then SelectPriceSource(staged) else staged
  }

  /** The flags of a load are the staged flags, with the price source
      chosen when every stage passed. */
  lemma LoadFlagsFromStages(req: LoadRequest, local: LocalData, f: Flags, staged: Flags)
    requires staged == StagedFlags(req, local, f, |LOAD_ORDER|)
    ensures PassedUpTo(req, local, |LOAD_ORDER|) ==> LoadFlags(req, local, f) == SelectPriceSource(staged)
    ensures !PassedUpTo(req, local, |LOAD_ORDER|) ==> LoadFlags(req, local, f) == staged
  {
  }

  /** The use flag of one kind raised when `loaded` holds. */
  function RaiseFlag(f: Flags, kind: Kind, loaded: bool): Flags {
    match kind
    case Tickers => f.(useTicker := f.useTicker || loaded)
    case Depths => f.(useDepth := f.useDepth || loaded)
    case Trades => f.(useTrades := f.useTrades || loaded)
    case Liquidations => f.(useLiquidations := f.useLiquidations || loaded)
    case Klines => f.(useKline := f.useKline || loaded)
  }

  /** The price-source choice: kline, then ticker, then trades, then depth;
      nothing when only liquidations are replayed. */
  function SelectPriceSource(f: Flags): (r: Flags)
    ensures r.(pxbyTicker := f.pxbyTicker, pxbyDepth := f.pxbyDepth, pxbyTrades := f.pxbyTrades, pxbyKline := f.pxbyKline) == f
    ensures r.pxbyKline == (f.pxbyKline || f.useKline)
    ensures r.pxbyTicker == (f.pxbyTicker || (!f.useKline && f.useTicker))
    ensures r.pxbyTrades == (f.pxbyTrades || (!f.useKline && !f.useTicker && f.useTrades))
    ensures r.pxbyDepth == (f.pxbyDepth || (!f.useKline && !f.useTicker && !f.useTrades && f.useDepth))
  {
    if f.useKline then f.(pxbyKline := true)
    else if f.useTicker then f.(pxbyTicker := true)
    else if f.useTrades then f.(pxbyTrades := true)
    else if f.useDepth then f.(pxbyDepth := true)
    else f
  }

  predicate AtMostOnePriceSource(f: Flags) {
    (if f.pxbyTicker then 1 else 0) + (if f.pxbyDepth then 1 else 0) +
    (if f.pxbyTrades then 1 else 0) + (if f.pxbyKline then 1 else 0) <= 1
  }

  /** From no price source, exactly one is chosen when any price-carrying
      kind is replayed, it is replayed itself, and none is chosen for
      liquidations alone. */
  lemma PriceSourceIsUnique(f: Flags)
    requires !f.pxbyTicker && !f.pxbyDepth && !f.pxbyTrades && !f.pxbyKline
    ensures AtMostOnePriceSource(SelectPriceSource(f))
    ensures var r := SelectPriceSource(f);
      (r.pxbyTicker ==> r.useTicker) && (r.pxbyDepth ==> r.useDepth) &&
      (r.pxbyTrades ==> r.useTrades) && (r.pxbyKline ==> r.useKline) &&
      ((r.pxbyTicker || r.pxbyDepth || r.pxbyTrades || r.pxbyKline) <==> (f.useTicker || f.useDepth || f.useTrades || f.useKline))
  {
  }

  /** A kind whose check fails stops the load: no later kind is loaded. */
  lemma {:induction false} FailureStopsLaterKinds(req: LoadRequest, local: LocalData, failed: Kind, later: Kind)
    requires Requested(req, failed) && !Covered(req, local, failed)
    requires KindIndex(failed) < KindIndex(later)
    ensures !Loads(req, local, later)
    ensures !PassedUpTo(req, local, |LOAD_ORDER|)
  {
    NotPassedBeyond(req, local, KindIndex(failed) + 1, KindIndex(later));
    NotPassedBeyond(req, local, KindIndex(failed) + 1, |LOAD_ORDER|);
  }

  /** Once the load stops before position `k`, no kind from `k` on is
      loaded and the load as a whole does not pass. */
  lemma FailedLoadStops(req: LoadRequest, local: LocalData, k: nat)
    requires 0 < k <= |LOAD_ORDER| && !PassedUpTo(req, local, k)
    ensures forall kind :: KindIndex(kind) >= k ==> !Loads(req, local, kind)
    ensures !PassedUpTo(req, local, |LOAD_ORDER|)
  {
    forall kind | KindIndex(kind) >= k
      ensures !Loads(req, local, kind)
    {
      NotPassedBeyond(req, local, k, KindIndex(kind));
    }
    NotPassedBeyond(req, local, k, |LOAD_ORDER|);
  }

  lemma {:induction false} NotPassedBeyond(req: LoadRequest, local: LocalData, k: nat, m: nat)
    requires 0 < k <= m <= |LOAD_ORDER|
    requires !PassedUpTo(req, local, k)
    ensures !PassedUpTo(req, local, m)
    decreases m - k
  {
    if k < m {
      NotPassedBeyond(req, local, k + 1, m);
    }
  }

  // ---------------------------------------------------------------------
  // Records into events.

  /** The records of one kind the store returns for an instrument, as event
      payloads: trades are tagged normal and liquidations tagged as such. */
  function RecordsOf(local: LocalData, kind: Kind, instId: string, interval: int): (r: seq<MarketData>)
    ensures kind == Trades ==> forall i :: 0 <= i < |r| ==> r[i].TradeData? && r[i].trade.tag == Normal
    ensures kind == Liquidations ==> forall i :: 0 <= i < |r| ==> r[i].TradeData? && r[i].trade.tag == Liquidation
    ensures kind == Tickers ==> forall i :: 0 <= i < |r| ==> r[i].TickerData?
    ensures kind == Depths ==> forall i :: 0 <= i < |r| ==> r[i].DepthData?
    ensures kind == Klines ==> forall i :: 0 <= i < |r| ==> r[i].KlineData?
  {
    match kind
    case Tickers =>
      var ts := if instId in local.tickers then local.tickers[instId] else [];
      seq(|ts|, i requires 0 <= i < |ts| => TickerData(ts[i]))
    case Depths =>
      var ds := if instId in local.depths then local.depths[instId] else [];
      seq(|ds|, i requires 0 <= i < |ds| => DepthData(ds[i]))
    case Trades =>
      var ts := if instId in local.trades then local.trades[instId] else [];
      seq(|ts|, i requires 0 <= i < |ts| => TradeData(ts[i].(tag := Normal)))
    case Liquidations =>
      var ts := if instId in local.liquidations then local.liquidations[instId] else [];
      seq(|ts|, i requires 0 <= i < |ts| => TradeData(ts[i].(tag := Liquidation)))
    case Klines =>
      var ks := if (instId, interval) in local.klines then local.klines[(instId, interval)] else [];
      seq(|ks|, i requires 0 <= i < |ks| => KlineData(ks[i]))
  }

  function ToUnit(index: int, d: MarketData): (u: MarketInfoUnit)
    ensures u.instIdIndex == index && u.data == d && u.time == RecordTime(d)
  {
    MarketInfoUnit(index, RecordTime(d), d)
  }

  /** The events appended for one instrument, in the store's order. */
  function UnitsOf(local: LocalData, kind: Kind, instId: string, index: int, interval: int): seq<MarketInfoUnit> {
    var rs := RecordsOf(local, kind, instId, interval);
    seq(|rs|, i requires 0 <= i < |rs| => ToUnit(index, rs[i]))
  }

  /** The first `j + 1` events of an instrument extend the first `j` by the
      event of record `j`. */
  lemma UnitsOfPrefix(local: LocalData, kind: Kind, instId: string, index: int, interval: int, j: nat)
    requires j < |RecordsOf(local, kind, instId, interval)|
    ensures UnitsOf(local, kind, instId, index, interval)[..j + 1] ==
            UnitsOf(local, kind, instId, index, interval)[..j] + [ToUnit(index, RecordsOf(local, kind, instId, interval)[j])]
  {
  }

  /** The events of one kind for a set of instruments of the index map, in
      no particular order. */
  ghost function KindBag(local: LocalData, kind: Kind, index: map<string, int>, keys: set<string>, interval: int): multiset<MarketInfoUnit>
    requires keys <= index.Keys
  {
    if keys == {} then multiset{}
    else
      var k :| k in keys;
      multiset(UnitsOf(local, kind, k, index[k], interval)) + KindBag(local, kind, index, keys - {k}, interval)
  }

  /** The bag does not depend on which instrument is taken first. */
  lemma {:induction false} KindBagRemove(local: LocalData, kind: Kind, index: map<string, int>, keys: set<string>, interval: int, k: string)
    requires keys <= index.Keys && k in keys
    ensures KindBag(local, kind, index, keys, interval) ==
            multiset(UnitsOf(local, kind, k, index[k], interval)) + KindBag(local, kind, index, keys - {k}, interval)
    decreases |keys|
  {
    var j :| j in keys && KindBag(local, kind, index, keys, interval) ==
             multiset(UnitsOf(local, kind, j, index[j], interval)) + KindBag(local, kind, index, keys - {j}, interval);
    if j != k {
      KindBagRemove(local, kind, index, keys - {j}, interval, k);
      KindBagRemove(local, kind, index, keys - {k}, interval, j);
      assert keys - {j} - {k} == keys - {k} - {j};
    }
  }

  /** The use flags after the first `k` stages of the load order: a stage
      raises its kind's flag when the kind is requested and the load passes
      it. */
  function StagedFlags(req: LoadRequest, local: LocalData, f: Flags, k: nat): Flags
    requires k <= |LOAD_ORDER|
  {
    if k == 0 then f
    else RaiseFlag(StagedFlags(req, local, f, k - 1), LOAD_ORDER[k - 1], PassedUpTo(req, local, k) && Requested(req, LOAD_ORDER[k - 1]))
  }

  /** The events appended by stage `k` of the load order: its kind's bag
      when the kind is requested and the load passes the stage. */
  ghost function StageBag(req: LoadRequest, local: LocalData, index: map<string, int>, k: nat): multiset<MarketInfoUnit>
    requires 0 < k <= |LOAD_ORDER|
  {
    if PassedUpTo(req, local, k) && Requested(req, LOAD_ORDER[k - 1])
    then KindBag(local, LOAD_ORDER[k - 1], index, index.Keys, req.klineIntervalSec)
    else multiset{}
  }

  /** The events appended by the first `k` stages of the load order. */
  ghost function StagedBag(req: LoadRequest, local: LocalData, index: map<string, int>, k: nat): multiset<MarketInfoUnit>
    requires k <= |LOAD_ORDER|
  {
    if k == 0 then multiset{} else StagedBag(req, local, index, k - 1) + StageBag(req, local, index, k)
  }

  /** Adding stage `n`'s events to what the earlier stages appended gives
      what the first `n` stages append. */
  lemma StagedBagGrows(req: LoadRequest, local: LocalData, index: map<string, int>, n: nat,
                       base: multiset<MarketInfoUnit>, before: multiset<MarketInfoUnit>, after: multiset<MarketInfoUnit>)
    requires 0 < n <= |LOAD_ORDER|
    requires before == base + StagedBag(req, local, index, n - 1)
    requires PassedUpTo(req, local, n) && Requested(req, LOAD_ORDER[n - 1]) ==>
      after == before + KindBag(local, LOAD_ORDER[n - 1], index, index.Keys, req.klineIntervalSec)
    requires !(PassedUpTo(req, local, n) && Requested(req, LOAD_ORDER[n - 1])) ==> after == before
    ensures after == base + StagedBag(req, local, index, n)
  {
  }

  /** A kind is loaded exactly when it is requested and the load passes its
      stage. */
  lemma LoadsAtStage(req: LoadRequest, local: LocalData, j: nat)
    requires j < |LOAD_ORDER|
    ensures Loads(req, local, LOAD_ORDER[j]) == (PassedUpTo(req, local, j + 1) && Requested(req, LOAD_ORDER[j]))
  {
    assert KindIndex(LOAD_ORDER[j]) == j;
  }

  /** Stage `n`, reached after the earlier stages passed, passes unless
      its kind is requested and not covered, and then adds that kind's
      flag and events exactly when it is requested. */
  lemma StageAdvance(req: LoadRequest, local: LocalData, f: Flags, n: nat)
    requires 0 < n <= |LOAD_ORDER| && PassedUpTo(req, local, n - 1)
    ensures PassedUpTo(req, local, n) <==> (Requested(req, LOAD_ORDER[n - 1]) ==> Covered(req, local, LOAD_ORDER[n - 1]))
    ensures var loaded := Requested(req, LOAD_ORDER[n - 1]) && Covered(req, local, LOAD_ORDER[n - 1]);
      StagedFlags(req, local, f, n) == RaiseFlag(StagedFlags(req, local, f, n - 1), LOAD_ORDER[n - 1], loaded)
  {
  }

  /** Raising a flag with nothing loaded changes nothing. */
  lemma RaiseNothing(f: Flags, kind: Kind)
    ensures RaiseFlag(f, kind, false) == f
  {
  }

  /** Once a stage fails, the later stages change nothing. */
  lemma {:induction false} StagesStop(req: LoadRequest, local: LocalData, f: Flags, index: map<string, int>, k: nat, m: nat)
    requires 0 < k <= m <= |LOAD_ORDER| && !PassedUpTo(req, local, k)
    ensures StagedFlags(req, local, f, m) == StagedFlags(req, local, f, k)
    ensures StagedBag(req, local, index, m) == StagedBag(req, local, index, k)
    ensures !PassedUpTo(req, local, m)
    decreases m
  {
    if k < m {
      StagesStop(req, local, f, index, k, m - 1);
      assert !PassedUpTo(req, local, m);
      RaiseNothing(StagedFlags(req, local, f, m - 1), LOAD_ORDER[m - 1]);
      assert StagedBag(req, local, index, m) == StagedBag(req, local, index, m - 1) + multiset{};
    }
  }

  /** Appending one more instrument's events to the bag of the instruments
      done so far gives the bag of one instrument more. */
  lemma KindBagStep(local: LocalData, kind: Kind, index: map<string, int>, keys: set<string>, interval: int, instId: string,
                    base: multiset<MarketInfoUnit>, before: multiset<MarketInfoUnit>, after: multiset<MarketInfoUnit>)
    requires keys <= index.Keys && instId in keys
    requires before == base + KindBag(local, kind, index, index.Keys - keys, interval)
    requires after == before + multiset(UnitsOf(local, kind, instId, index[instId], interval))
    ensures after == base + KindBag(local, kind, index, index.Keys - (keys - {instId}), interval)
  {
    var done := index.Keys - keys;
    KindBagRemove(local, kind, index, done + {instId}, interval, instId);
    assert done + {instId} - {instId} == done;
    assert index.Keys - (keys - {instId}) == done + {instId};
  }

  /** Everything a load appends: the bags of the loaded kinds. */
  ghost function LoadedBag(req: LoadRequest, local: LocalData, index: map<string, int>): multiset<MarketInfoUnit> {
    StagedBag(req, local, index, |LOAD_ORDER|)
  }

  /** Every event in a kind's bag takes its time from its record, carries an
      index the map gives to one of the instruments, and is tagged as its
      kind. */
  lemma {:induction false} KindBagEvents(local: LocalData, kind: Kind, index: map<string, int>, keys: set<string>, interval: int, u: MarketInfoUnit)
    requires keys <= index.Keys
    requires u in KindBag(local, kind, index, keys, interval)
    ensures u.time == RecordTime(u.data)
    ensures exists k :: k in keys && index[k] == u.instIdIndex
    ensures kind == Trades ==> u.data.TradeData? && u.data.trade.tag == Normal
    ensures kind == Liquidations ==> u.data.TradeData? && u.data.trade.tag == Liquidation
    decreases |keys|
  {
    var k :| k in keys && KindBag(local, kind, index, keys, interval) ==
             multiset(UnitsOf(local, kind, k, index[k], interval)) + KindBag(local, kind, index, keys - {k}, interval);
    if u in multiset(UnitsOf(local, kind, k, index[k], interval)) {
      var us := UnitsOf(local, kind, k, index[k], interval);
      var i :| 0 <= i < |us| && us[i] == u;
      assert u.instIdIndex == index[k];
    } else {
      KindBagEvents(local, kind, index, keys - {k}, interval, u);
    }
  }

  // ---------------------------------------------------------------------
  // The instrument index map.

  /** `instIdIndexs` as the loop builds it: each id maps to its position,
      and for a repeated id the later position wins. */
  function IndexMap(instIds: seq<string>): map<string, int> {
    if |instIds| == 0 then map[]
    else IndexMap(instIds[..|instIds| - 1])[instIds[|instIds| - 1] := |instIds| - 1]
  }

  /** The map lists exactly the ids, and each id maps to its last position. */
  lemma {:induction false} IndexMapFacts(instIds: seq<string>)
    ensures IndexMap(instIds).Keys == set i | 0 <= i < |instIds| :: instIds[i]
    ensures forall k :: k in IndexMap(instIds) ==>
      0 <= IndexMap(instIds)[k] < |instIds| && instIds[IndexMap(instIds)[k]] == k &&
      forall j :: IndexMap(instIds)[k] < j < |instIds| ==> instIds[j] != k
  {
    if |instIds| > 0 {
      var init := instIds[..|instIds| - 1];
      IndexMapFacts(init);
      var m := IndexMap(instIds);
      forall k | k in m
        ensures 0 <= m[k] < |instIds| && instIds[m[k]] == k && forall j :: m[k] < j < |instIds| ==> instIds[j] != k
      {
        if k != instIds[|instIds| - 1] {
          assert k in IndexMap(init);
          assert instIds[m[k]] == init[m[k]];
          forall j | m[k] < j < |instIds|
            ensures instIds[j] != k
          {
            if j < |instIds| - 1 {
              assert instIds[j] == init[j];
            }
          }
        }
      }
      assert m.Keys == (set i | 0 <= i < |init| :: init[i]) + {instIds[|instIds| - 1]};
      forall k | k in m.Keys
        ensures k in set i | 0 <= i < |instIds| :: instIds[i]
      {
        if k != instIds[|instIds| - 1] {
          var i :| 0 <= i < |init| && init[i] == k;
          assert instIds[i] == k;
        }
      }
      forall i | 0 <= i < |instIds|
        ensures instIds[i] in m.Keys
      {
        if i < |instIds| - 1 {
          assert init[i] == instIds[i];
        }
      }
    }
  }

  /** Worked example of the later-wins rule. */
  lemma IndexMapDuplicateExample()
    ensures IndexMap(["btc_usdt", "eth_usdt", "btc_usdt"]) == map["btc_usdt" := 2, "eth_usdt" := 1]
  {
    assert ["btc_usdt", "eth_usdt", "btc_usdt"][..2] == ["btc_usdt", "eth_usdt"];
    assert ["btc_usdt", "eth_usdt"][..1] == ["btc_usdt"];
    assert ["btc_usdt"][..0] == [];
  }

  /** The loop at the head of `LoadMarketInfo`. */
  method BuildIndexMap(instIds: seq<string>) returns (m: map<string, int>)
    ensures m == IndexMap(instIds)
  {
    m := map[];
    for i := 0 to |instIds|
      invariant m == IndexMap(instIds[..i])
    {
      assert instIds[..i + 1][..i] == instIds[..i];
      m := m[instIds[i] := i];
    }
    assert instIds[..|instIds|] == instIds;
  }

  // ---------------------------------------------------------------------
  // Ordering by time.

  predicate SortedByTime(s: seq<MarketInfoUnit>) {
    forall i, j :: 0 <= i < j < |s| ==> s[i].time <= s[j].time
  }

  /** Insert one event into a time-ordered sequence, after every event with
      an earlier or equal time. */
  function InsertByTime(u: MarketInfoUnit, s: seq<MarketInfoUnit>): (r: seq<MarketInfoUnit>)
    ensures multiset(r) == multiset(s) + multiset{u}
  {
    if |s| == 0 then [u]
    else if u.time < s[|s| - 1].time then
      assert s == s[..|s| - 1] + [s[|s| - 1]];
      InsertByTime(u, s[..|s| - 1]) + [s[|s| - 1]]
    else
      s + [u]
  }

  /** Insertion keeps the sequence in time order. */
  lemma {:induction false} InsertKeepsSorted(u: MarketInfoUnit, s: seq<MarketInfoUnit>)
    requires SortedByTime(s)
    ensures SortedByTime(InsertByTime(u, s))
  {
    if |s| > 0 && u.time < s[|s| - 1].time {
      var init, last := s[..|s| - 1], s[|s| - 1];
      var r0 := InsertByTime(u, init);
      InsertKeepsSorted(u, init);
      forall i | 0 <= i < |r0|
        ensures r0[i].time <= last.time
      {
        assert r0[i] in multiset(r0);
        if r0[i] != u {
          assert r0[i] in multiset(init);
          var j :| 0 <= j < |init| && init[j] == r0[i];
          assert init[j] == s[j];
        }
      }
    }
  }

  /** The final sort of `LoadMarketInfo`: the events in non-decreasing time
      order, a permutation of the loaded ones.  The order among equal times
      is not specified by the Go code, whose sort is not stable. */
  method SortByTime(s: seq<MarketInfoUnit>) returns (r: seq<MarketInfoUnit>)
    ensures SortedByTime(r)
    ensures multiset(r) == multiset(s)
  {
    r := [];
    for i := 0 to |s|
      invariant SortedByTime(r)
      invariant multiset(r) == multiset(s[..i])
    {
      assert s[..i + 1] == s[..i] + [s[i]];
      InsertKeepsSorted(s[i], r);
      r := InsertByTime(s[i], r);
    }
    assert s[..|s|] == s;
  }
}
