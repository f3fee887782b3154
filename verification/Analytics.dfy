/** The market projections of one token, each a fold of its canonical trades in chain order:
    metrics, curve state, current price and chart buckets. */
module Analytics {
  import opened Wrappers
  import opened Chain
  import opened Numeric
  import opened Sums
  import Order

  datatype Source = CurveSource | PoolSource

  /** A trades row. Amounts are raw: curve reserves have 18 decimals, pool reserves have 6. */
  datatype Trade = Trade(token: Address, trader: Address, side: Side, tokens: nat, reserve: nat, value: nat,
                         protocolFee: nat, creatorFee: nat, source: Source, txIndex: nat)

  datatype Placed = Placed(pos: Order.Pos, time: nat, trade: Trade)

  const WAD: nat := 1_000_000_000_000_000_000
  const USDC_TO_WAD: nat := 1_000_000_000_000
  const VIRTUAL_TOKENS: nat := 1_066_666_666_666_666_666_666_666_667

  // ---------------------------------------------------------------- additive columns

  type Measure = Trade -> nat

  function One(t: Trade): nat { 1 }
  function IsBuy(t: Trade): nat { if t.side.Buy? then 1 else 0 }
  function IsSell(t: Trade): nat { if t.side.Sell? then 1 else 0 }
  function FeesOf(t: Trade): nat { t.protocolFee + t.creatorFee }

  /** Volume in 18-decimal native units. */
  function VolumeOf(t: Trade): nat {
    if t.source.PoolSource? then t.reserve * USDC_TO_WAD else t.value
  }

  function Sum(f: Measure, ts: seq<Placed>): nat
    decreases |ts|
  {
    if ts == [] then 0 else Sum(f, ts[..|ts| - 1]) + f(ts[|ts| - 1].trade)
  }

  // ---------------------------------------------------------------- curve state

  function Signed(t: Trade, amount: nat): int {
    var a: int := amount;
    if t.side.Buy? then a else -a
  }

  datatype CurveState = CurveState(sold: int, reserve: int)

  /** The curve after a trade. */
  function Moved(s: CurveState, t: Trade): CurveState {
    CurveState(s.sold + Signed(t, t.tokens), s.reserve + Signed(t, t.value))
  }

  /** The aggregate of rebuildCurveStateTx: only curve trades are summed. */
  function Aggregate(ts: seq<Placed>): CurveState
    decreases |ts|
  {
    if ts == [] then CurveState(0, 0)
    else
      var s := Aggregate(ts[..|ts| - 1]);
      var t := ts[|ts| - 1].trade;
      if t.source.CurveSource? then Moved(s, t) else s
  }

  /** The running window sums of the candle queries: every trade is summed, pool trades as 0. */
  function Window(ts: seq<Placed>, i: nat): CurveState
    requires i < |ts|
  {
    var t := ts[i].trade;
    var before := if i == 0 then CurveState(0, 0) else Window(ts, i - 1);
    CurveState(before.sold + (if t.source.CurveSource? then Signed(t, t.tokens) else 0),
               before.reserve + (if t.source.CurveSource? then Signed(t, t.value) else 0))
  }

  // ---------------------------------------------------------------- prices

  /** ceil((virtualReserve + reserve) * 1e18 / (virtualTokens - sold)), when the state is sane. */
  function CurvePrice(virtualReserve: nat, s: CurveState, digits: Digits): Option<nat> {
    if 0 <= s.sold < VIRTUAL_TOKENS && s.reserve >= 0 then
      var a: nat := (virtualReserve + s.reserve) * WAD;
      var b: nat := VIRTUAL_TOKENS - s.sold;
      Some(CeilSql(a, b, digits(a, b)))
    else None
  }

  /** floor(reserve * 10^(18 + 12) / NULLIF(tokens, 0)). */
  function PoolPrice(t: Trade, digits: Digits): Option<nat> {
    if t.tokens == 0 then None
    else
      var a := t.reserve * (WAD * USDC_TO_WAD);
      Some(FloorSql(a, t.tokens, digits(a, t.tokens)))
  }

  /** The price right after trade i. */
  function PriceAt(ts: seq<Placed>, i: nat, virtualReserve: nat, digits: Digits): Option<nat>
    requires i < |ts|
  {
    if ts[i].trade.source.PoolSource? then PoolPrice(ts[i].trade, digits)
    else CurvePrice(virtualReserve, Window(ts, i), digits)
  }

  /** The newest pool trade, if any. */
  function LastPool(ts: seq<Placed>): Option<Trade>
    decreases |ts|
  {
    if ts == [] then None
    else if ts[|ts| - 1].trade.source.PoolSource? then Some(ts[|ts| - 1].trade)
    else LastPool(ts[..|ts| - 1])
  }

  /** token_metrics.current_price: the curve price, overwritten by the newest pool trade's. */
  function CurrentPrice(ts: seq<Placed>, virtualReserve: nat, digits: Digits): Option<nat> {
    match LastPool(ts)
    case Some(t) => PoolPrice(t, digits)
    case None => CurvePrice(virtualReserve, Aggregate(ts), digits)
  }

  function DilutedValue(price: Option<nat>, supply: nat, digits: Digits): Option<nat> {
    match price
    case None => None
    case Some(p) => Some(FloorSql(p * supply, WAD, digits(p * supply, WAD)))
  }

  datatype Metrics = Metrics(trades: nat, buys: nat, sells: nat, volume: nat, fees: nat, traders: nat,
                             price: Option<nat>, diluted: Option<nat>)

  function MetricsOf(ts: seq<Placed>, supply: nat, virtualReserve: nat, digits: Digits): Metrics {
    var price := CurrentPrice(ts, virtualReserve, digits);
    Metrics(Sum(One, ts), Sum(IsBuy, ts), Sum(IsSell, ts), Sum(VolumeOf, ts), Sum(FeesOf, ts),
            |set t | t in ts :: t.trade.trader|, price, DilutedValue(price, supply, digits))
  }

  // ---------------------------------------------------------------- buckets

  /** Sends a block time to the start of its bucket. */
  type Buckets = nat -> int

  datatype Interval = Every(seconds: nat) | Weekly
  {
    predicate Valid() { Every? ==> seconds > 0 }
  }

  /** date_trunc('week', ...) in UTC: the Monday on or before the day. 1970-01-01 was a Thursday. */
  function WeekStart(time: nat): int {
    var day := time / 86400;
    var sinceMonday := (day + 3) % 7;
    (day - sinceMonday) * 86400
  }

  function BucketStart(iv: Interval, time: nat): int
    requires iv.Valid()
  {
    match iv
    case Every(seconds) => (time / seconds) * seconds
    case Weekly => WeekStart(time)
  }

  function Bucketing(iv: Interval): Buckets
    requires iv.Valid()
  {
    (time: nat) => BucketStart(iv, time)
  }

  /** The trades of one bucket, in chain order. */
  function Members(ts: seq<Placed>, bucket: Buckets, b: int): seq<Placed>
    decreases |ts|
  {
    if ts == [] then []
    else
      var init := Members(ts[..|ts| - 1], bucket, b);
      if bucket(ts[|ts| - 1].time) == b then init + [ts[|ts| - 1]] else init
  }

  /** The prices after the trades of one bucket, in chain order. */
  function MemberPrices(ts: seq<Placed>, n: nat, bucket: Buckets, b: int, virtualReserve: nat,
                        digits: Digits): seq<Option<nat>>
    requires n <= |ts|
  {
    if n == 0 then []
    else
      var init := MemberPrices(ts, n - 1, bucket, b, virtualReserve, digits);
      if bucket(ts[n - 1].time) == b then init + [PriceAt(ts, n - 1, virtualReserve, digits)] else init
  }

  datatype Ohlc = Ohlc(open: nat, high: nat, low: nat, close: nat)
  datatype Candle = Candle(trades: nat, buys: nat, sells: nat, volume: nat, traders: nat, prices: Option<Ohlc>)

  function Highest(ps: seq<Option<nat>>): nat
    requires ps != [] && forall p | p in ps :: p.Some?
    decreases |ps|
  {
    var last := ps[|ps| - 1].value;
    if |ps| == 1 then last
    else var h := Highest(ps[..|ps| - 1]); if last > h then last else h
  }

  function Lowest(ps: seq<Option<nat>>): nat
    requires ps != [] && forall p | p in ps :: p.Some?
    decreases |ps|
  {
    var last := ps[|ps| - 1].value;
    if |ps| == 1 then last
    else var l := Lowest(ps[..|ps| - 1]); if last < l then last else l
  }

  /** Candle prices exist only when every trade of the bucket is priced. */
  function Prices(ps: seq<Option<nat>>): Option<Ohlc> {
    if ps == [] || exists p | p in ps :: p.None? then None
    else Some(Ohlc(ps[0].value, Highest(ps), Lowest(ps), ps[|ps| - 1].value))
  }

  function BucketKeys(ts: seq<Placed>, bucket: Buckets): set<int>
  {
    set t | t in ts :: bucket(t.time)
  }

  function Candles(ts: seq<Placed>, bucket: Buckets, virtualReserve: nat, digits: Digits): map<int, Candle>
  {
    map b | b in BucketKeys(ts, bucket) ::
      var members := Members(ts, bucket, b);
      Candle(Sum(One, members), Sum(IsBuy, members), Sum(IsSell, members), Sum(VolumeOf, members),
             |set t | t in members :: t.trade.trader|,
             Prices(MemberPrices(ts, |ts|, bucket, b, virtualReserve, digits)))
  }

  // ---------------------------------------------------------------- agreement of the folds

  lemma {:induction false} WindowPrefix(ts: seq<Placed>, us: seq<Placed>, i: nat)
    requires i < |ts| <= |us| && ts == us[..|ts|]
    ensures Window(ts, i) == Window(us, i)
  {
    if i > 0 { WindowPrefix(ts, us, i - 1); }
  }

  /** The window sums at the last trade are the aggregate, pool trades included or not. */
  lemma {:induction false} WindowIsAggregate(ts: seq<Placed>)
    requires ts != []
    ensures Window(ts, |ts| - 1) == Aggregate(ts)
  {
    var n := |ts| - 1;
    if n > 0 {
      WindowIsAggregate(ts[..n]);
      WindowPrefix(ts[..n], ts, n - 1);
    }
  }

  /** The window sums at the last curve trade already equal the aggregated sold supply and reserve:
      later pool trades leave the curve alone. */
  lemma {:induction false} CurveSettlesAtLastCurveTrade(ts: seq<Placed>, i: nat)
    requires i < |ts|
    requires forall j | i < j < |ts| :: ts[j].trade.source.PoolSource?
    ensures Window(ts, i) == Aggregate(ts)
  {
    var n := |ts| - 1;
    if i == n {
      WindowIsAggregate(ts);
    } else {
      CurveSettlesAtLastCurveTrade(ts[..n], i);
      WindowPrefix(ts[..n], ts, i);
    }
  }

  /** The price after the last trade is the current price, unless a curve trade follows a pool
      trade; then the current price is still the pool's. */
  lemma {:induction false} LastPriceIsCurrent(ts: seq<Placed>, virtualReserve: nat, digits: Digits)
    requires ts != []
    ensures ts[|ts| - 1].trade.source.PoolSource? || LastPool(ts).None? ==>
      PriceAt(ts, |ts| - 1, virtualReserve, digits) == CurrentPrice(ts, virtualReserve, digits)
    ensures ts[|ts| - 1].trade.source.CurveSource? && LastPool(ts).Some? ==>
      CurrentPrice(ts, virtualReserve, digits) == PoolPrice(LastPool(ts).value, digits)
  {
    WindowIsAggregate(ts);
  }

  lemma {:induction false} PriceBounds(ps: seq<Option<nat>>, p: Option<nat>)
    requires forall q | q in ps :: q.Some?
    requires p in ps
    ensures Lowest(ps) <= p.value <= Highest(ps)
    ensures Some(Lowest(ps)) in ps && Some(Highest(ps)) in ps
    decreases |ps|
  {
    var init, last := ps[..|ps| - 1], ps[|ps| - 1];
    assert ps == init + [last];
    assert last in ps && last == Some(last.value);
    if init != [] {
      assert init[0] in init;
      PriceBounds(init, if p in init then p else init[0]);
    }
  }

  lemma {:induction false} MemberPricesShape(ts: seq<Placed>, n: nat, bucket: Buckets, b: int, virtualReserve: nat,
                                             digits: Digits)
    requires n <= |ts|
    ensures |MemberPrices(ts, n, bucket, b, virtualReserve, digits)| == |Members(ts[..n], bucket, b)|
    ensures b in BucketKeys(ts[..n], bucket) <==> MemberPrices(ts, n, bucket, b, virtualReserve, digits) != []
  {
    if n > 0 {
      MemberPricesShape(ts, n - 1, bucket, b, virtualReserve, digits);
      assert ts[..n][..n - 1] == ts[..n - 1];
      assert ts[..n] == ts[..n - 1] + [ts[n - 1]];
      assert forall t :: t in ts[..n] <==> t in ts[..n - 1] || t == ts[n - 1];
      if bucket(ts[n - 1].time) == b { assert ts[n - 1] in ts[..n]; }
      if b in BucketKeys(ts[..n], bucket) && bucket(ts[n - 1].time) != b {
        var t :| t in ts[..n] && bucket(t.time) == b;
        assert t in ts[..n - 1];
      }
    }
  }

  /** In every priced bucket low <= open, close <= high, and the extremes are real trade prices. */
  lemma {:induction false} CandleBounds(ts: seq<Placed>, bucket: Buckets, virtualReserve: nat, digits: Digits, b: int)
    requires b in Candles(ts, bucket, virtualReserve, digits)
    requires Candles(ts, bucket, virtualReserve, digits)[b].prices.Some?
    ensures var c := Candles(ts, bucket, virtualReserve, digits)[b].prices.value;
      c.low <= c.open <= c.high && c.low <= c.close <= c.high
      && Some(c.low) in MemberPrices(ts, |ts|, bucket, b, virtualReserve, digits)
      && Some(c.high) in MemberPrices(ts, |ts|, bucket, b, virtualReserve, digits)
  {
    var ps := MemberPrices(ts, |ts|, bucket, b, virtualReserve, digits);
    PriceBounds(ps, ps[0]);
    PriceBounds(ps, ps[|ps| - 1]);
  }

  lemma {:induction false} BucketMonotone(iv: Interval, t: nat, u: nat)
    requires iv.Valid() && t <= u
    ensures BucketStart(iv, t) <= BucketStart(iv, u) <= u
  {
    match iv {
      case Every(seconds) =>
        FloorMonotone(t, u, seconds);
        MulMono(t / seconds, u / seconds, seconds);
      case Weekly =>
        FloorMonotone(t, u, 86400);
    }
  }

  lemma {:induction false} MemberPricesLast(ts: seq<Placed>, n: nat, bucket: Buckets, virtualReserve: nat,
                                            digits: Digits)
    requires 0 < n <= |ts|
    ensures var ps := MemberPrices(ts, n, bucket, bucket(ts[n - 1].time), virtualReserve, digits);
      ps != [] && ps[|ps| - 1] == PriceAt(ts, n - 1, virtualReserve, digits)
  {
  }

  lemma {:induction false} NewestBucket(ts: seq<Placed>, bucket: Buckets, newest: int)
    requires ts != []
    requires forall i, j | 0 <= i < j < |ts| :: ts[i].time <= ts[j].time
    requires forall t: nat, u: nat | t <= u :: bucket(t) <= bucket(u)
    requires newest in BucketKeys(ts, bucket) && forall b | b in BucketKeys(ts, bucket) :: b <= newest
    ensures newest == bucket(ts[|ts| - 1].time)
  {
    var last := ts[|ts| - 1];
    assert bucket(last.time) in BucketKeys(ts, bucket);
    var t :| t in ts && bucket(t.time) == newest;
  }

  /** With block times that never run backwards and no curve trade after a pool trade, the newest
      bucket holds the newest trade, and if it is priced its close is the current price. */
  lemma {:induction false} NewestCloseIsCurrentPrice(ts: seq<Placed>, bucket: Buckets, virtualReserve: nat,
                                                     digits: Digits, newest: int)
    requires ts != []
    requires forall i, j | 0 <= i < j < |ts| :: ts[i].time <= ts[j].time
    requires ts[|ts| - 1].trade.source.PoolSource? || LastPool(ts).None?
    requires forall t: nat, u: nat | t <= u :: bucket(t) <= bucket(u)
    requires newest in BucketKeys(ts, bucket) && forall b | b in BucketKeys(ts, bucket) :: b <= newest
    ensures newest == bucket(ts[|ts| - 1].time)
    ensures Candles(ts, bucket, virtualReserve, digits)[newest].prices.Some? ==>
      CurrentPrice(ts, virtualReserve, digits)
        == Some(Candles(ts, bucket, virtualReserve, digits)[newest].prices.value.close)
  {
    NewestBucket(ts, bucket, newest);
    LastPriceIsCurrent(ts, virtualReserve, digits);
    MemberPricesLast(ts, |ts|, bucket, virtualReserve, digits);
  }

  const LATE_POOL := Placed(Order.Pos(1, 0, 0, 1), 10, Trade(7, 8, Buy, 1, 1, 1, 0, 0, PoolSource, 0))
  const LATE_CURVE := Placed(Order.Pos(2, 0, 0, 2), 20, Trade(7, 8, Buy, 1, 1, 1, 0, 0, CurveSource, 0))

  lemma {:induction false} LatePrices(digits: Digits)
    ensures PoolPrice(LATE_POOL.trade, digits) == Some(WAD * USDC_TO_WAD)
    ensures CurvePrice(WAD, CurveState(1, 1), digits).Some? && CurvePrice(WAD, CurveState(1, 1), digits).value < WAD
  {
    var a := WAD * USDC_TO_WAD;
    FloorSqlExact(a, 1, digits(a, 1));
    FloorUnique(a, 1, a);
    var c, d: nat := (WAD + 1) * WAD, VIRTUAL_TOKENS - 1;
    CeilSqlExact(c, d, digits(c, d));
    FloorUnique(c + d - 1, d, 937500001);
  }

  /** The condition matters: after a pool trade priced 10^30 a curve buy reprices the bucket but
      not the metrics, whatever digits are kept. */
  lemma {:induction false} CurveTradeAfterPoolTrade(digits: Digits)
    ensures var ts := [LATE_POOL, LATE_CURVE];
      CurrentPrice(ts, WAD, digits) == PoolPrice(LATE_POOL.trade, digits)
      && PriceAt(ts, 1, WAD, digits) == CurvePrice(WAD, CurveState(1, 1), digits)
      && CurrentPrice(ts, WAD, digits) != PriceAt(ts, 1, WAD, digits)
  {
    var ts := [LATE_POOL, LATE_CURVE];
    assert ts[..1] == [LATE_POOL];
    assert LastPool(ts) == LastPool([LATE_POOL]) == Some(LATE_POOL.trade);
    assert Window(ts, 0) == CurveState(0, 0);
    LatePrices(digits);
  }

  // ---------------------------------------------------------------- what a candle's prices are

  /** The price right after trade i: of a pool trade its own, of a curve trade that of the curve as the trades
      up to it left it. */
  lemma {:induction false} PriceIsOfPrefix(ts: seq<Placed>, i: nat, virtualReserve: nat, digits: Digits)
    requires i < |ts|
    ensures PriceAt(ts, i, virtualReserve, digits)
         == if ts[i].trade.source.PoolSource? then PoolPrice(ts[i].trade, digits)
            else CurvePrice(virtualReserve, Aggregate(ts[..i + 1]), digits)
  {
    WindowPrefix(ts[..i + 1], ts, i);
    WindowIsAggregate(ts[..i + 1]);
  }

  /** Trade i is one of the first n and in the bucket. */
  ghost predicate InBucket(ts: seq<Placed>, n: nat, i: nat, bucket: Buckets, b: int) {
    i < n <= |ts| && bucket(ts[i].time) == b
  }

  ghost predicate FirstIn(ts: seq<Placed>, n: nat, i: nat, bucket: Buckets, b: int) {
    InBucket(ts, n, i, bucket, b) && forall j: nat | InBucket(ts, n, j, bucket, b) :: i <= j
  }

  ghost predicate LastIn(ts: seq<Placed>, n: nat, i: nat, bucket: Buckets, b: int) {
    InBucket(ts, n, i, bucket, b) && forall j: nat | InBucket(ts, n, j, bucket, b) :: j <= i
  }

  lemma {:induction false} InBucketStep(ts: seq<Placed>, n: nat, bucket: Buckets, b: int)
    requires 0 < n <= |ts|
    ensures forall i: nat :: InBucket(ts, n, i, bucket, b) <==>
      InBucket(ts, n - 1, i, bucket, b) || (i == n - 1 && bucket(ts[n - 1].time) == b)
  {
  }

  /** The prices of a bucket are those after its trades. */
  lemma {:induction false} MemberPricesAre(ts: seq<Placed>, n: nat, bucket: Buckets, b: int, virtualReserve: nat,
                                           digits: Digits, p: Option<nat>)
    requires n <= |ts|
    ensures p in MemberPrices(ts, n, bucket, b, virtualReserve, digits) <==>
      exists i: nat :: InBucket(ts, n, i, bucket, b) && p == PriceAt(ts, i, virtualReserve, digits)
    decreases n
  {
    if n > 0 {
      MemberPricesAre(ts, n - 1, bucket, b, virtualReserve, digits, p);
      InBucketStep(ts, n, bucket, b);
      if p in MemberPrices(ts, n, bucket, b, virtualReserve, digits)
        && p !in MemberPrices(ts, n - 1, bucket, b, virtualReserve, digits) {
        assert InBucket(ts, n, n - 1, bucket, b);
      }
    }
  }

  lemma {:induction false} NoPrices(ts: seq<Placed>, n: nat, bucket: Buckets, b: int, virtualReserve: nat,
                                    digits: Digits)
    requires n <= |ts| && forall i: nat :: !InBucket(ts, n, i, bucket, b)
    ensures MemberPrices(ts, n, bucket, b, virtualReserve, digits) == []
    decreases n
  {
    if n > 0 {
      var m := n - 1;
      InBucketStep(ts, n, bucket, b);
      forall j: nat ensures !InBucket(ts, m, j, bucket, b) { assert !InBucket(ts, n, j, bucket, b); }
      assert !InBucket(ts, n, m, bucket, b);
      NoPrices(ts, m, bucket, b, virtualReserve, digits);
    }
  }

  /** The first price is that after the first of them, */
  lemma {:induction false} MemberPricesFirst(ts: seq<Placed>, n: nat, bucket: Buckets, b: int, virtualReserve: nat,
                                             digits: Digits, i: nat)
    requires n <= |ts| && FirstIn(ts, n, i, bucket, b)
    ensures var ps := MemberPrices(ts, n, bucket, b, virtualReserve, digits);
      ps != [] && ps[0] == PriceAt(ts, i, virtualReserve, digits)
    decreases n
  {
    var m := n - 1;
    InBucketStep(ts, n, bucket, b);
    if i < m {
      forall j: nat | InBucket(ts, m, j, bucket, b) ensures i <= j { assert InBucket(ts, n, j, bucket, b); }
      MemberPricesFirst(ts, m, bucket, b, virtualReserve, digits, i);
    } else {
      forall j: nat ensures !InBucket(ts, m, j, bucket, b) {
        assert InBucket(ts, m, j, bucket, b) ==> InBucket(ts, n, j, bucket, b);
      }
      NoPrices(ts, m, bucket, b, virtualReserve, digits);
    }
  }

  /** and the last that after the last. */
  lemma {:induction false} MemberPricesFinal(ts: seq<Placed>, n: nat, bucket: Buckets, b: int, virtualReserve: nat,
                                             digits: Digits, i: nat)
    requires n <= |ts| && LastIn(ts, n, i, bucket, b)
    ensures var ps := MemberPrices(ts, n, bucket, b, virtualReserve, digits);
      ps != [] && ps[|ps| - 1] == PriceAt(ts, i, virtualReserve, digits)
    decreases n
  {
    var m := n - 1;
    InBucketStep(ts, n, bucket, b);
    if i < m {
      assert !InBucket(ts, n, m, bucket, b);
      forall j: nat | InBucket(ts, m, j, bucket, b) ensures j <= i { assert InBucket(ts, n, j, bucket, b); }
      MemberPricesFinal(ts, m, bucket, b, virtualReserve, digits, i);
    }
  }

  /** These are a bucket's prices: opening after its first trade, closing after its last, and the highest and lowest
      after any; there are prices exactly when there is one after each. */
  ghost predicate PricesOf(prices: Option<Ohlc>, ts: seq<Placed>, bucket: Buckets, b: int, virtualReserve: nat,
                           digits: Digits) {
    (prices.Some? <==> forall i: nat | InBucket(ts, |ts|, i, bucket, b) :: PriceAt(ts, i, virtualReserve, digits).Some?)
    && (prices.Some? ==>
          (forall i: nat | FirstIn(ts, |ts|, i, bucket, b) ::
             PriceAt(ts, i, virtualReserve, digits) == Some(prices.value.open))
          && (forall i: nat | LastIn(ts, |ts|, i, bucket, b) ::
                PriceAt(ts, i, virtualReserve, digits) == Some(prices.value.close))
          && (forall i: nat | InBucket(ts, |ts|, i, bucket, b) ::
                PriceAt(ts, i, virtualReserve, digits).Some?
                && prices.value.low <= PriceAt(ts, i, virtualReserve, digits).value <= prices.value.high)
          && Attained(prices.value.low, ts, bucket, b, virtualReserve, digits)
          && Attained(prices.value.high, ts, bucket, b, virtualReserve, digits))
  }

  ghost predicate Attained(price: nat, ts: seq<Placed>, bucket: Buckets, b: int, virtualReserve: nat, digits: Digits) {
    exists i: nat :: InBucket(ts, |ts|, i, bucket, b) && PriceAt(ts, i, virtualReserve, digits) == Some(price)
  }

  lemma {:induction false} CandlePrices(ts: seq<Placed>, bucket: Buckets, virtualReserve: nat, digits: Digits, b: int)
    requires b in Candles(ts, bucket, virtualReserve, digits)
    ensures PricesOf(Candles(ts, bucket, virtualReserve, digits)[b].prices, ts, bucket, b, virtualReserve, digits)
  {
    var ps := MemberPrices(ts, |ts|, bucket, b, virtualReserve, digits);
    assert ts[..|ts|] == ts;
    MemberPricesShape(ts, |ts|, bucket, b, virtualReserve, digits);
    forall i: nat | InBucket(ts, |ts|, i, bucket, b) ensures PriceAt(ts, i, virtualReserve, digits) in ps {
      MemberPricesAre(ts, |ts|, bucket, b, virtualReserve, digits, PriceAt(ts, i, virtualReserve, digits));
    }
    if Prices(ps).Some? {
      SomePrices(ts, ps, bucket, b, virtualReserve, digits);
    } else {
      var p :| p in ps && p.None?;
      MemberPricesAre(ts, |ts|, bucket, b, virtualReserve, digits, p);
    }
  }

  lemma {:induction false} SomePrices(ts: seq<Placed>, ps: seq<Option<nat>>, bucket: Buckets, b: int,
                                      virtualReserve: nat, digits: Digits)
    requires ps == MemberPrices(ts, |ts|, bucket, b, virtualReserve, digits) && Prices(ps).Some?
    requires forall i: nat | InBucket(ts, |ts|, i, bucket, b) :: PriceAt(ts, i, virtualReserve, digits) in ps
    ensures PricesOf(Prices(ps), ts, bucket, b, virtualReserve, digits)
  {
    PriceBounds(ps, ps[0]);
    MemberPricesAre(ts, |ts|, bucket, b, virtualReserve, digits, Some(Lowest(ps)));
    MemberPricesAre(ts, |ts|, bucket, b, virtualReserve, digits, Some(Highest(ps)));
    forall i: nat | InBucket(ts, |ts|, i, bucket, b)
      ensures Lowest(ps) <= PriceAt(ts, i, virtualReserve, digits).value <= Highest(ps)
    {
      PriceBounds(ps, PriceAt(ts, i, virtualReserve, digits));
    }
    forall i: nat | FirstIn(ts, |ts|, i, bucket, b) ensures PriceAt(ts, i, virtualReserve, digits) == ps[0] {
      MemberPricesFirst(ts, |ts|, bucket, b, virtualReserve, digits, i);
    }
    forall i: nat | LastIn(ts, |ts|, i, bucket, b) ensures PriceAt(ts, i, virtualReserve, digits) == ps[|ps| - 1] {
      MemberPricesFinal(ts, |ts|, bucket, b, virtualReserve, digits, i);
    }
  }

  // ---------------------------------------------------------------- conservation

  ghost function Column(ts: seq<Placed>, bucket: Buckets, f: Measure): map<int, int>
  {
    map b | b in BucketKeys(ts, bucket) :: Sum(f, Members(ts, bucket, b))
  }

  lemma {:induction false} NotMember(ts: seq<Placed>, bucket: Buckets, b: int)
    requires b !in BucketKeys(ts, bucket)
    ensures Members(ts, bucket, b) == []
    decreases |ts|
  {
    if ts != [] {
      assert ts[|ts| - 1] in ts;
      assert forall t | t in ts[..|ts| - 1] :: t in ts;
      NotMember(ts[..|ts| - 1], bucket, b);
    }
  }

  lemma {:induction false} MembersSum(m: seq<Placed>, last: Placed, f: Measure)
    ensures Sum(f, m + [last]) == Sum(f, m) + f(last.trade)
  {
    assert (m + [last])[..|m|] == m;
  }

  lemma {:induction false} KeysStep(init: seq<Placed>, last: Placed, bucket: Buckets)
    ensures BucketKeys(init + [last], bucket) == BucketKeys(init, bucket) + {bucket(last.time)}
  {
    assert forall t :: t in init + [last] <==> t in init || t == last;
  }

  lemma {:induction false} MembersStep(init: seq<Placed>, last: Placed, bucket: Buckets, b: int)
    ensures Members(init + [last], bucket, b)
         == if bucket(last.time) == b then Members(init, bucket, b) + [last] else Members(init, bucket, b)
  {
    assert (init + [last])[..|init|] == init;
  }

  lemma {:induction false} ColumnAt(init: seq<Placed>, last: Placed, bucket: Buckets, f: Measure, k: int)
    ensures Sum(f, Members(init + [last], bucket, k))
         == if k == bucket(last.time) then Get(Column(init, bucket, f), k) + f(last.trade)
            else Sum(f, Members(init, bucket, k))
  {
    MembersStep(init, last, bucket, k);
    MembersSum(Members(init, bucket, k), last, f);
    if k !in BucketKeys(init, bucket) { NotMember(init, bucket, k); }
  }

  lemma {:induction false} ColumnStep(init: seq<Placed>, last: Placed, bucket: Buckets, f: Measure)
    ensures var b, c := bucket(last.time), Column(init, bucket, f);
      Column(init + [last], bucket, f) == c[b := Get(c, b) + f(last.trade)]
  {
    var b, c := bucket(last.time), Column(init, bucket, f);
    KeysStep(init, last, bucket);
    var d := Column(init + [last], bucket, f);
    assert d.Keys == c.Keys + {b};
    forall k | k in d ensures d[k] == if k == b then Get(c, b) + f(last.trade) else c[k] {
      ColumnAt(init, last, bucket, f, k);
    }
  }

  /** Every additive column of the buckets sums to the same column of the metrics. */
  lemma {:induction false} BucketsConserve(ts: seq<Placed>, bucket: Buckets, f: Measure)
    ensures Total(Column(ts, bucket, f)) == Sum(f, ts)
    decreases |ts|
  {
    if ts == [] {
      assert Column(ts, bucket, f) == map[];
    } else {
      var init, last := ts[..|ts| - 1], ts[|ts| - 1];
      BucketsConserve(init, bucket, f);
      ColumnTotal(init, last, bucket, f);
      assert ts == init + [last];
    }
  }

  lemma {:induction false} ColumnTotal(init: seq<Placed>, last: Placed, bucket: Buckets, f: Measure)
    ensures Total(Column(init + [last], bucket, f)) == Total(Column(init, bucket, f)) + f(last.trade)
  {
    ColumnStep(init, last, bucket, f);
    TotalAdd(Column(init, bucket, f), bucket(last.time), f(last.trade), Column(init + [last], bucket, f));
  }

  // ---------------------------------------------------------------- price moves with the trade

  /** SQL's price of this state is one below the exact ceil. */
  predicate PriceRoundsDown(virtualReserve: nat, s: CurveState, digits: Digits)
    requires CurvePrice(virtualReserve, s, digits).Some?
  {
    var a: nat, b: nat := (virtualReserve + s.reserve) * WAD, VIRTUAL_TOKENS - s.sold;
    RoundsDown(a, b, digits(a, b))
  }

  /** The ceil price without rounding. */
  function ExactPrice(virtualReserve: nat, s: CurveState): nat
    requires 0 <= s.sold < VIRTUAL_TOKENS && s.reserve >= 0
  {
    Ceil((virtualReserve + s.reserve) * WAD, VIRTUAL_TOKENS - s.sold)
  }

  /** The price can fall by one on this move up: only the later quotient loses its fraction to rounding,
      and the exact prices are equal. */
  predicate Slips(virtualReserve: nat, lower: CurveState, higher: CurveState, digits: Digits)
    requires CurvePrice(virtualReserve, lower, digits).Some? && CurvePrice(virtualReserve, higher, digits).Some?
  {
    PriceRoundsDown(virtualReserve, higher, digits) && !PriceRoundsDown(virtualReserve, lower, digits)
    && ExactPrice(virtualReserve, lower) == ExactPrice(virtualReserve, higher)
  }

  /** More sold and more reserve never lower the price, except by one exactly when it slips. */
  lemma {:induction false} PriceUpUnlessSlips(virtualReserve: nat, lower: CurveState, higher: CurveState,
                                              digits: Digits)
    requires CurvePrice(virtualReserve, lower, digits).Some? && CurvePrice(virtualReserve, higher, digits).Some?
    requires lower.sold <= higher.sold && lower.reserve <= higher.reserve
    ensures var p, q := CurvePrice(virtualReserve, lower, digits).value,
      CurvePrice(virtualReserve, higher, digits).value;
      (p <= q <==> !Slips(virtualReserve, lower, higher, digits)) && p <= q + 1
  {
    var a: nat, b: nat := (virtualReserve + lower.reserve) * WAD, VIRTUAL_TOKENS - lower.sold;
    var c: nat, d: nat := (virtualReserve + higher.reserve) * WAD, VIRTUAL_TOKENS - higher.sold;
    CrossMono(a, b, c, d);
    CeilMonotone(a, b, c, d);
    CeilSqlExact(a, b, digits(a, b));
    CeilSqlExact(c, d, digits(c, d));
  }

  /** Whatever digits SQL keeps, the ceil price never falls on a curve buy nor rises on a curve sell,
      except by one exactly when it slips. */
  lemma {:induction false} CurvePriceFollowsSide(virtualReserve: nat, s: CurveState, t: Trade, digits: Digits)
    requires CurvePrice(virtualReserve, s, digits).Some? && CurvePrice(virtualReserve, Moved(s, t), digits).Some?
    ensures var p, q := CurvePrice(virtualReserve, s, digits).value,
      CurvePrice(virtualReserve, Moved(s, t), digits).value;
      if t.side.Buy? then (p <= q <==> !Slips(virtualReserve, s, Moved(s, t), digits)) && p <= q + 1
      else (q <= p <==> !Slips(virtualReserve, Moved(s, t), s, digits)) && q <= p + 1
  {
    if t.side.Buy? {
      PriceUpUnlessSlips(virtualReserve, s, Moved(s, t), digits);
    } else {
      PriceUpUnlessSlips(virtualReserve, Moved(s, t), s, digits);
    }
  }

  /** Kept to the same digits it never slips. */
  lemma {:induction false} SameDigitsNeverSlip(virtualReserve: nat, lower: CurveState, higher: CurveState,
                                               digits: Digits)
    requires CurvePrice(virtualReserve, lower, digits).Some? && CurvePrice(virtualReserve, higher, digits).Some?
    requires lower.sold <= higher.sold && lower.reserve <= higher.reserve
    requires digits((virtualReserve + lower.reserve) * WAD, VIRTUAL_TOKENS - lower.sold)
          == digits((virtualReserve + higher.reserve) * WAD, VIRTUAL_TOKENS - higher.sold)
    ensures !Slips(virtualReserve, lower, higher, digits)
  {
    var a: nat, b: nat := (virtualReserve + lower.reserve) * WAD, VIRTUAL_TOKENS - lower.sold;
    var c: nat, d: nat := (virtualReserve + higher.reserve) * WAD, VIRTUAL_TOKENS - higher.sold;
    CrossMono(a, b, c, d);
    CeilSqlMonotone(a, b, c, d, digits(a, b));
    PriceUpUnlessSlips(virtualReserve, lower, higher, digits);
  }

  const SLIP_BEFORE := CurveState(734560828247353886950559383, 331999999999999999999)
  const SLIP_BUY := Trade(7, 8, Buy, 1, 1, 1, 0, 0, CurveSource, 0)

  lemma {:induction false} SlipDigits()
    ensures PostgresDigits(332999999999999999999000000000000000000, 332105838419312779716107284) == 8
    ensures PostgresDigits(333000000000000000000000000000000000000, 332105838419312779716107283) == 4
  {
    assert Weight(332999999999999999999000000000000000000) == 9 && Lead(332999999999999999999000000000000000000) == 332;
    assert Weight(333000000000000000000000000000000000000) == 9 && Lead(333000000000000000000000000000000000000) == 333;
    assert Weight(332105838419312779716107284) == 6 && Lead(332105838419312779716107284) == 332;
    assert Weight(332105838419312779716107283) == 6 && Lead(332105838419312779716107283) == 332;
  }

  /** With PostgreSQL's digits and the source's reserve of 1e18 a buy of one unit lowers the price from
      1002692399463, kept to 8 digits, to 1002692399462, kept to 4. */
  lemma {:induction false} BuyLowersPrice()
    ensures CurvePrice(WAD, SLIP_BEFORE, PostgresDigits) == Some(1002692399463)
    ensures CurvePrice(WAD, Moved(SLIP_BEFORE, SLIP_BUY), PostgresDigits) == Some(1002692399462)
  {
    SlipDigits();
    assert Pow10(4) == 10000 && Pow10(8) == 100000000;
    CeilSqlIs(332999999999999999999000000000000000000, 332105838419312779716107284, 8, 100269239946200001091,
      1002692399463);
    CeilSqlIs(333000000000000000000000000000000000000, 332105838419312779716107283, 4, 10026923994620000,
      1002692399462);
  }

  lemma {:induction false} CrossMono(a: nat, b: nat, c: nat, d: nat)
    requires a <= c && d <= b
    ensures a * d <= c * b
  {
    MulMono(a, c, d);
    MulMono(d, b, c);
  }
}
