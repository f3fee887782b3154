/** From one pool log to both readers, and from live candles to indexed candles: the overlay draws
    what the candle query will return once the indexer has caught up. */
module HandOff {
  import opened Wrappers
  import opened Chain
  import opened Numeric
  import opened Analytics
  import opened Overlay
  import opened Views
  import Order
  import Swaps

  // ---------------------------------------------------------------- one swap, two readers

  /** decodeSwap of the realtime service, which compares addresses as bytes. */
  function DecodeSwap(l: Log, token: seq<Swaps.Byte>, usdc: seq<Swaps.Byte>, time: nat): Option<Live>
    requires l.payload.Swap?
  {
    match Swaps.DecoderReading(token, usdc, l.payload.amount0, l.payload.amount1)
    case None => None
    case Some(r) => Some(Live(l.block, l.index, l.tx, Some(time), PoolSource, r.side, r.tokens, r.usdc, 6))
  }

  /** The live event of a pool log and the trades row of the same log carry the same side and
      amounts, and both readers refuse the same deltas. */
  lemma {:induction false} SwapReadersAgree(l: Log, token: seq<Swaps.Byte>, usdc: seq<Swaps.Byte>, time: nat,
                                            ctx: Context)
    requires l.payload.Swap? && |token| == |usdc| && Swaps.Value(usdc) == Swaps.USDC
    ensures DecodeSwap(l, token, usdc, time).None? <==> SwapTrade(Swaps.Value(token), l, ctx) == Err(InvalidDeltas)
    ensures SwapTrade(Swaps.Value(token), l, ctx).Ok? ==>
      var trade := SwapTrade(Swaps.Value(token), l, ctx).value;
      DecodeSwap(l, token, usdc, time)
        == Some(LiveOf(Placed(Order.Pos(l.block, l.txIndex, l.index, l.tx), time, trade)))
      && trade.tokens > 0
  {
    Swaps.NormalizeIsBoth(token, usdc, _ => false, _ => false, l.payload.amount0, l.payload.amount1);
    Swaps.ReadingMeansExchange(Swaps.Value(token), l.payload.amount0, l.payload.amount1);
  }

  // ---------------------------------------------------------------- candles

  function PointOf(b: int, c: Candle): Point {
    Point(b, c.trades, c.buys, c.sells, c.volume, c.traders,
          if c.prices.None? then None else Some(c.prices.value.open),
          if c.prices.None? then None else Some(c.prices.value.high),
          if c.prices.None? then None else Some(c.prices.value.low),
          if c.prices.None? then None else Some(c.prices.value.close))
  }

  function PointsOf(candles: map<int, Candle>): Chart {
    map b | b in candles :: PointOf(b, candles[b])
  }

  function Tally(members: seq<Placed>, prices: Option<Ohlc>): Candle {
    Candle(Sum(One, members), Sum(IsBuy, members), Sum(IsSell, members), Sum(VolumeOf, members),
           |set t | t in members :: t.trade.trader|, prices)
  }

  /** The stored prices after the trades of one bucket. */
  function Stored(ts: seq<Placed>, bucket: Buckets, b: int, virtualReserve: nat, digits: Digits): seq<Option<nat>> {
    MemberPrices(ts, |ts|, bucket, b, virtualReserve, digits)
  }

  /** One candle of the candle query. */
  function CandleAt(ts: seq<Placed>, bucket: Buckets, b: int, virtualReserve: nat, digits: Digits): Candle {
    Tally(Members(ts, bucket, b), Prices(Stored(ts, bucket, b, virtualReserve, digits)))
  }

  lemma {:induction false} CandlesAt(ts: seq<Placed>, bucket: Buckets, virtualReserve: nat, digits: Digits)
    ensures Candles(ts, bucket, virtualReserve, digits).Keys == BucketKeys(ts, bucket)
    ensures forall b | b in BucketKeys(ts, bucket) ::
      Candles(ts, bucket, virtualReserve, digits)[b] == CandleAt(ts, bucket, b, virtualReserve, digits)
  {
  }

  predicate AllSome(ps: seq<Option<nat>>) {
    forall p | p in ps :: p.Some?
  }

  /** The page's prices of pool trades, */
  function Floors(live: seq<Placed>): (r: seq<Option<nat>>)
    ensures |r| == |live| && forall i | 0 <= i < |live| :: r[i] == LivePrice(LiveOf(live[i]))
  {
    seq(|live|, i requires 0 <= i < |live| => LivePrice(LiveOf(live[i])))
  }

  /** and SQL's. */
  function Kept(live: seq<Placed>, digits: Digits): (r: seq<Option<nat>>)
    ensures |r| == |live| && forall i | 0 <= i < |live| :: r[i] == PoolPrice(live[i].trade, digits)
  {
    seq(|live|, i requires 0 <= i < |live| => PoolPrice(live[i].trade, digits))
  }

  /** What a bucket's price columns on the page are made of: the stored prices, unless one is missing
      and the columns arrive as null, and the page's prices of the live trades. */
  function Page(stored: seq<Option<nat>>, live: seq<Placed>): seq<Option<nat>> {
    (if AllSome(stored) then stored else []) + Floors(live)
  }

  function PointFrom(b: int, all: seq<Placed>, stored: seq<Option<nat>>, live: seq<Placed>,
                     indexed: seq<Placed>): Point {
    PointOf(b, Tally(all, Prices(Page(stored, live)))).(traders := Tally(indexed, None).traders)
  }

  /** One point of the page's chart, by its trades. */
  function PagePoint(before: seq<Placed>, ts: seq<Placed>, bucket: Buckets, b: int, virtualReserve: nat,
                     digits: Digits): Point {
    PointFrom(b, Members(before + ts, bucket, b), Stored(before, bucket, b, virtualReserve, digits),
      Members(ts, bucket, b),
              Members(before, bucket, b))
  }

  lemma {:induction false} PricesNone(ps: seq<Option<nat>>)
    ensures Prices(ps).None? <==> ps == [] || !AllSome(ps)
  {
  }

  lemma {:induction false} PageSome(stored: seq<Option<nat>>, live: seq<Placed>)
    requires Pooled(live)
    ensures AllSome(Page(stored, live))
  {
    forall i | 0 <= i < |live| ensures Floors(live)[i].Some? { assert live[i] in live; }
  }

  lemma {:induction false} PooledPart(ts: seq<Placed>, bucket: Buckets, b: int)
    requires Pooled(ts)
    ensures Pooled(Members(ts, bucket, b))
    decreases |ts|
  {
    if ts != [] {
      assert forall p | p in ts[..|ts| - 1] :: p in ts;
      assert ts[|ts| - 1] in ts;
      PooledPart(ts[..|ts| - 1], bucket, b);
    }
  }

  /** A bucket without trades. */
  lemma {:induction false} NoneYet(ts: seq<Placed>, bucket: Buckets, b: int, virtualReserve: nat, digits: Digits)
    ensures b in BucketKeys(ts, bucket) <==> Members(ts, bucket, b) != []
    ensures b in BucketKeys(ts, bucket) <==> Stored(ts, bucket, b, virtualReserve, digits) != []
  {
    MemberPricesShape(ts, |ts|, bucket, b, virtualReserve, digits);
    assert ts[..|ts|] == ts;
  }

  lemma {:induction false} KeysJoin(a: seq<Placed>, b: seq<Placed>, bucket: Buckets)
    ensures BucketKeys(a + b, bucket) == BucketKeys(a, bucket) + BucketKeys(b, bucket)
  {
    assert forall t :: t in a + b <==> t in a || t in b;
  }

  // ---------------------------------------------------------------- the page's chart

  /** One more price in a priced bucket. */
  lemma {:induction false} PricesStep(ps: seq<Option<nat>>, price: nat)
    requires AllSome(ps)
    ensures Prices(ps + [Some(price)]) == Some(
      if ps == [] then Ohlc(price, price, price, price)
      else Ohlc(Prices(ps).value.open, MaxOf(Some(Prices(ps).value.high), price),
                MinOf(Some(Prices(ps).value.low), price), price))
  {
    var qs := ps + [Some(price)];
    assert qs[..|qs| - 1] == ps;
    assert forall q | q in qs :: q in ps || q == Some(price);
  }

  lemma {:induction false} PageStep(stored: seq<Option<nat>>, live: seq<Placed>, p: Placed)
    requires Pooled(live) && Pooled([p])
    ensures LivePrice(LiveOf(p)).Some? && AllSome(Page(stored, live))
    ensures Prices(Page(stored, live + [p])) == Prices(Page(stored, live) + [Some(LivePrice(LiveOf(p)).value)])
  {
    assert p in [p];
    PageSome(stored, live);
    assert Floors(live + [p]) == Floors(live) + [LivePrice(LiveOf(p))];
    assert Page(stored, live + [p]) == Page(stored, live) + [LivePrice(LiveOf(p))];
  }

  /** The trades of a bucket with one more trade. */
  lemma {:induction false} MembersDrawn(before: seq<Placed>, init: seq<Placed>, p: Placed, bucket: Buckets, b: int)
    ensures Members(before + (init + [p]), bucket, b)
         == if bucket(p.time) == b then Members(before + init, bucket, b) + [p] else Members(before + init, bucket, b)
  {
    MembersStep(before + init, p, bucket, b);
    assert before + (init + [p]) == (before + init) + [p];
  }

  lemma {:induction false} SamePoint(before: seq<Placed>, ts: seq<Placed>, us: seq<Placed>, bucket: Buckets, b: int,
                                     virtualReserve: nat, digits: Digits)
    requires Members(before + ts, bucket, b) == Members(before + us, bucket, b)
      && Members(ts, bucket, b) == Members(us, bucket, b)
    ensures PagePoint(before, ts, bucket, b, virtualReserve, digits)
      == PagePoint(before, us, bucket, b, virtualReserve, digits)
  {
  }

  /** Other buckets keep their point. */
  lemma {:induction false} PageOther(before: seq<Placed>, init: seq<Placed>, p: Placed, bucket: Buckets, b: int,
                                     virtualReserve: nat, digits: Digits)
    requires bucket(p.time) != b
    ensures PagePoint(before, init + [p], bucket, b, virtualReserve, digits)
         == PagePoint(before, init, bucket, b, virtualReserve, digits)
  {
    MembersStep(init, p, bucket, b);
    MembersDrawn(before, init, p, bucket, b);
    SamePoint(before, init + [p], init, bucket, b, virtualReserve, digits);
  }

  lemma {:induction false} TallyStep(m: seq<Placed>, p: Placed, prices: Option<Ohlc>, after: Option<Ohlc>)
    requires p.trade.source.PoolSource?
    ensures var c, d := Tally(m, prices), Tally(m + [p], after);
      d.trades == c.trades + 1 && d.buys == c.buys + IsBuy(p.trade) && d.sells == c.sells + IsSell(p.trade)
      && d.volume == c.volume + LiveVolume(LiveOf(p)) && d.prices == after
    ensures m == [] ==> Tally(m, prices) == Candle(0, 0, 0, 0, 0, prices)
  {
    MembersSum(m, p, One);
    MembersSum(m, p, IsBuy);
    MembersSum(m, p, IsSell);
    MembersSum(m, p, VolumeOf);
    if m == [] { assert (set t | t in m :: t.trade.trader) == {}; }
  }

  lemma {:induction false} PointStep(b: int, m: seq<Placed>, p: Placed, shown: seq<Option<nat>>, price: nat,
                                     traders: nat)
    requires p.trade.source.PoolSource? && AllSome(shown)
    ensures var before := PointOf(b, Tally(m, Prices(shown))).(traders := traders);
      var after := PointOf(b, Tally(m + [p], Prices(shown + [Some(price)]))).(traders := traders);
      after == Extended(before, LiveOf(p), price)
      && (m == [] && shown == [] && traders == 0 ==> after == Opened(LiveOf(p), b, price))
  {
    PricesStep(shown, price);
    PricesNone(shown);
    TallyStep(m, p, Prices(shown), Prices(shown + [Some(price)]));
  }

  /** Drawing a trade on its bucket adds it to the point's trades. */
  lemma {:induction false} PageOwn(before: seq<Placed>, init: seq<Placed>, p: Placed, bucket: Buckets,
                                   virtualReserve: nat, digits: Digits)
    requires Pooled(init) && Pooled([p])
    ensures LivePrice(LiveOf(p)).Some?
    ensures var b, price := bucket(p.time), LivePrice(LiveOf(p)).value;
      PagePoint(before, init + [p], bucket, b, virtualReserve, digits)
      == if b in BucketKeys(before + init, bucket)
         then Extended(PagePoint(before, init, bucket, b, virtualReserve, digits), LiveOf(p), price)
         else Opened(LiveOf(p), b, price)
  {
    var b := bucket(p.time);
    var stored, live := Stored(before, bucket, b, virtualReserve, digits), Members(init, bucket, b);
    assert p in [p];
    PooledPart(init, bucket, b);
    MembersStep(init, p, bucket, b);
    MembersDrawn(before, init, p, bucket, b);
    PageStep(stored, live, p);
    PointStep(b, Members(before + init, bucket, b), p, Page(stored, live), LivePrice(LiveOf(p)).value,
              Tally(Members(before, bucket, b), None).traders);
    if b !in BucketKeys(before + init, bucket) {
      NothingYet(before, init, bucket, b, virtualReserve, digits);
    }
  }

  lemma {:induction false} NothingYet(before: seq<Placed>, init: seq<Placed>, bucket: Buckets, b: int,
                                      virtualReserve: nat, digits: Digits)
    requires b !in BucketKeys(before + init, bucket)
    ensures Members(before + init, bucket, b) == []
      && Page(Stored(before, bucket, b, virtualReserve, digits), Members(init, bucket, b)) == []
    ensures Tally(Members(before, bucket, b), None).traders == 0
  {
    KeysJoin(before, init, bucket);
    NoneYet(before, bucket, b, virtualReserve, digits);
    NoneYet(init, bucket, b, virtualReserve, digits);
    NoneYet(before + init, bucket, b, virtualReserve, digits);
    assert (set t | t in Members(before, bucket, b) :: t.trade.trader) == {};
  }

  /** The chart as its trades make it. */
  ghost predicate Shows(chart: Chart, before: seq<Placed>, ts: seq<Placed>, bucket: Buckets, virtualReserve: nat,
                        digits: Digits) {
    chart.Keys == BucketKeys(before + ts, bucket)
    && forall b | b in chart :: chart[b] == PagePoint(before, ts, bucket, b, virtualReserve, digits)
  }

  lemma {:induction false} ShowsIndexed(before: seq<Placed>, bucket: Buckets, virtualReserve: nat, digits: Digits)
    ensures Shows(PointsOf(Candles(before, bucket, virtualReserve, digits)), before, [], bucket, virtualReserve, digits)
  {
    CandlesAt(before, bucket, virtualReserve, digits);
    assert before + [] == before;
    forall b | b in BucketKeys(before, bucket)
      ensures PagePoint(before, [], bucket, b, virtualReserve, digits)
           == PointOf(b, CandleAt(before, bucket, b, virtualReserve, digits))
    {
      var stored := Stored(before, bucket, b, virtualReserve, digits);
      PricesNone(stored);
      PricesNone(Page(stored, []));
      assert AllSome(stored) ==> Page(stored, []) == stored;
    }
  }

  lemma {:induction false} DrewKeys(chart: Chart, e: Live, iv: Interval, b: int)
    requires iv.Valid() && e.Valid() && Drawn(e) && OverlayBucket(iv, e.time.value) == b
    ensures Drew(chart, e, iv).Keys == chart.Keys + {b}
    ensures forall k | k in chart && k != b :: Drew(chart, e, iv)[k] == chart[k]
    ensures Drew(chart, e, iv)[b] == if b in chart then Extended(chart[b], e, LivePrice(e).value)
                                     else Opened(e, b, LivePrice(e).value)
  {
  }

  lemma {:induction false} ShowsPut(chart: Chart, drawn: Chart, before: seq<Placed>, init: seq<Placed>,
                                    after: seq<Placed>, k: int,
                                    bucket: Buckets, virtualReserve: nat, digits: Digits)
    requires Shows(chart, before, init, bucket, virtualReserve, digits)
    requires BucketKeys(before + after, bucket) == BucketKeys(before + init, bucket) + {k}
    requires forall b | b != k ::
      PagePoint(before, after, bucket, b, virtualReserve, digits)
        == PagePoint(before, init, bucket, b, virtualReserve, digits)
    requires drawn.Keys == chart.Keys + {k} && forall b | b in chart && b != k :: drawn[b] == chart[b]
    requires drawn[k] == PagePoint(before, after, bucket, k, virtualReserve, digits)
    ensures Shows(drawn, before, after, bucket, virtualReserve, digits)
  {
  }

  lemma {:induction false} KeysDrawn(before: seq<Placed>, init: seq<Placed>, p: Placed, bucket: Buckets)
    ensures BucketKeys(before + (init + [p]), bucket) == BucketKeys(before + init, bucket) + {bucket(p.time)}
  {
    KeysStep(before + init, p, bucket);
    assert before + (init + [p]) == (before + init) + [p];
  }

  lemma {:induction false} ShowsStep(chart: Chart, before: seq<Placed>, init: seq<Placed>, p: Placed, iv: Interval,
                                     virtualReserve: nat, digits: Digits)
    requires iv.Valid() && Pooled(init) && Pooled([p])
    requires Shows(chart, before, init, Bucketing(iv), virtualReserve, digits)
    ensures Shows(Drew(chart, LiveOf(p), iv), before, init + [p], Bucketing(iv), virtualReserve, digits)
  {
    var bucket, k := Bucketing(iv), BucketStart(iv, p.time);
    BucketsAligned(iv, p.time);
    PageOwn(before, init, p, bucket, virtualReserve, digits);
    DrewKeys(chart, LiveOf(p), iv, k);
    KeysDrawn(before, init, p, bucket);
    forall b | b != k
      ensures PagePoint(before, init + [p], bucket, b, virtualReserve, digits)
           == PagePoint(before, init, bucket, b, virtualReserve, digits)
    {
      PageOther(before, init, p, bucket, b, virtualReserve, digits);
    }
    ShowsPut(chart, Drew(chart, LiveOf(p), iv), before, init, init + [p], k, bucket, virtualReserve, digits);
  }

  lemma {:induction false} DrewShows(before: seq<Placed>, ts: seq<Placed>, iv: Interval, virtualReserve: nat,
                                     digits: Digits)
    requires iv.Valid() && Pooled(ts)
    ensures Shows(DrewAll(PointsOf(Candles(before, Bucketing(iv), virtualReserve, digits)), LivesOf(ts), iv),
                  before, ts, Bucketing(iv), virtualReserve, digits)
    decreases |ts|
  {
    var start := PointsOf(Candles(before, Bucketing(iv), virtualReserve, digits));
    if ts == [] {
      ShowsIndexed(before, Bucketing(iv), virtualReserve, digits);
    } else {
      var init, last := ts[..|ts| - 1], ts[|ts| - 1];
      assert ts == init + [last];
      assert last in ts && forall p | p in init :: p in ts;
      DrewShows(before, init, iv, virtualReserve, digits);
      ShowsStep(DrewAll(start, LivesOf(init), iv), before, init, last, iv, virtualReserve, digits);
      assert LivesOf(ts)[..|ts| - 1] == LivesOf(init) && LivesOf(ts)[|ts| - 1] == LiveOf(last);
    }
  }

  // ---------------------------------------------------------------- the query's candles

  lemma {:induction false} PricePrefix(ts: seq<Placed>, p: Placed, i: nat, virtualReserve: nat, digits: Digits)
    requires i < |ts|
    ensures PriceAt(ts + [p], i, virtualReserve, digits) == PriceAt(ts, i, virtualReserve, digits)
  {
    WindowPrefix(ts, ts + [p], i);
  }

  lemma {:induction false} MemberPricesPrefix(ts: seq<Placed>, p: Placed, n: nat, bucket: Buckets, b: int,
                                              virtualReserve: nat, digits: Digits)
    requires n <= |ts|
    ensures MemberPrices(ts + [p], n, bucket, b, virtualReserve, digits)
      == MemberPrices(ts, n, bucket, b, virtualReserve, digits)
  {
    if n > 0 {
      MemberPricesPrefix(ts, p, n - 1, bucket, b, virtualReserve, digits);
      PricePrefix(ts, p, n - 1, virtualReserve, digits);
    }
  }

  /** One more pool trade's prices: its own bucket gets one more price. */
  lemma {:induction false} StoredStep(ts: seq<Placed>, p: Placed, bucket: Buckets, b: int, virtualReserve: nat,
                                      digits: Digits)
    requires p.trade.source.PoolSource?
    ensures Stored(ts + [p], bucket, b, virtualReserve, digits)
         == Stored(ts, bucket, b, virtualReserve, digits)
           + (if bucket(p.time) == b then [PoolPrice(p.trade, digits)] else [])
  {
    MemberPricesPrefix(ts, p, |ts|, bucket, b, virtualReserve, digits);
    assert (ts + [p])[|ts|] == p;
  }

  /** The query prices a pool trade by itself, whatever was indexed before it. */
  lemma {:induction false} StoredJoin(before: seq<Placed>, ts: seq<Placed>, bucket: Buckets, b: int,
                                      virtualReserve: nat, digits: Digits)
    requires Pooled(ts)
    ensures Stored(before + ts, bucket, b, virtualReserve, digits)
         == Stored(before, bucket, b, virtualReserve, digits) + Kept(Members(ts, bucket, b), digits)
    decreases |ts|
  {
    if ts == [] {
      assert before + ts == before;
    } else {
      var init, last := ts[..|ts| - 1], ts[|ts| - 1];
      assert ts == init + [last] && before + ts == (before + init) + [last];
      assert last in ts && forall p | p in init :: p in ts;
      StoredJoin(before, init, bucket, b, virtualReserve, digits);
      StoredStep(before + init, last, bucket, b, virtualReserve, digits);
      MembersStep(init, last, bucket, b);
      var live := Members(init, bucket, b);
      assert Kept(live + [last], digits) == Kept(live, digits) + [PoolPrice(last.trade, digits)];
    }
  }

  // ---------------------------------------------------------------- prices that differ by at most one

  /** Prices of the same trades, each kept or raised by one. */
  ghost predicate Raised(fs: seq<Option<nat>>, ks: seq<Option<nat>>) {
    |fs| == |ks| && forall i | 0 <= i < |fs| ::
      fs[i].Some? && ks[i].Some? && fs[i].value <= ks[i].value <= fs[i].value + 1
  }

  lemma {:induction false} RaisedIff(live: seq<Placed>, digits: Digits)
    requires Pooled(live)
    ensures Raised(Floors(live), Kept(live, digits))
    ensures forall i | 0 <= i < |live| ::
      live[i].trade.tokens > 0 && (Kept(live, digits)[i] == Floors(live)[i] <==> !PriceRoundsUp(live[i].trade, digits))
  {
    forall i | 0 <= i < |live|
      ensures var p := live[i];
        p.trade.tokens > 0 && LivePrice(LiveOf(p)).Some? && PoolPrice(p.trade, digits)
          == Some(LivePrice(LiveOf(p)).value + if PriceRoundsUp(p.trade, digits) then 1 else 0)
    {
      var t := live[i].trade;
      assert live[i] in live;
      var a := t.reserve * (WAD * USDC_TO_WAD);
      FloorSqlExact(a, t.tokens, digits(a, t.tokens));
    }
  }

  lemma {:induction false} SomeJoin(indexed: seq<Option<nat>>, fs: seq<Option<nat>>, ks: seq<Option<nat>>)
    requires AllSome(indexed) && Raised(fs, ks)
    ensures AllSome(indexed + fs) && AllSome(indexed + ks)
  {
  }

  lemma {:induction false} HighestBounds(indexed: seq<Option<nat>>, fs: seq<Option<nat>>)
    requires AllSome(indexed + fs) && fs != []
    ensures var h := Highest(indexed + fs);
      (forall p | p in indexed :: p.Some? && p.value <= h)
      && (forall i | 0 <= i < |fs| :: fs[i].Some? && fs[i].value <= h)
      && (Some(h) in indexed || exists i | 0 <= i < |fs| :: fs[i] == Some(h))
  {
    assert fs[0] in indexed + fs;
    forall p | p in indexed + fs ensures p.value <= Highest(indexed + fs) { PriceBounds(indexed + fs, p); }
    PriceBounds(indexed + fs, fs[0]);
    assert forall i | 0 <= i < |fs| :: fs[i] in indexed + fs;
  }

  lemma {:induction false} LowestBounds(indexed: seq<Option<nat>>, fs: seq<Option<nat>>)
    requires AllSome(indexed + fs) && fs != []
    ensures var l := Lowest(indexed + fs);
      (forall p | p in indexed :: p.Some? && l <= p.value)
      && (forall i | 0 <= i < |fs| :: fs[i].Some? && l <= fs[i].value)
      && (Some(l) in indexed || exists i | 0 <= i < |fs| :: fs[i] == Some(l))
  {
    assert fs[0] in indexed + fs;
    forall p | p in indexed + fs ensures Lowest(indexed + fs) <= p.value { PriceBounds(indexed + fs, p); }
    PriceBounds(indexed + fs, fs[0]);
    assert forall i | 0 <= i < |fs| :: fs[i] in indexed + fs;
  }

  /** The highest price moves exactly when a price at the top was raised. */
  lemma {:induction false} RaisedHighest(indexed: seq<Option<nat>>, fs: seq<Option<nat>>, ks: seq<Option<nat>>)
    requires AllSome(indexed) && Raised(fs, ks) && fs != []
    ensures AllSome(indexed + fs) && AllSome(indexed + ks)
    ensures var f, s := Highest(indexed + fs), Highest(indexed + ks);
      f <= s <= f + 1 && (s == f <==> forall i | 0 <= i < |fs| && fs[i] == Some(f) :: ks[i] == fs[i])
  {
    SomeJoin(indexed, fs, ks);
    HighestBounds(indexed, fs);
    HighestBounds(indexed, ks);
    HighestRaised(indexed, fs, ks, Highest(indexed + fs), Highest(indexed + ks));
  }

  lemma {:induction false} HighestRaised(indexed: seq<Option<nat>>, fs: seq<Option<nat>>, ks: seq<Option<nat>>, f: nat,
                                         s: nat)
    requires Raised(fs, ks) && forall p | p in indexed :: p.Some? && p.value <= f && p.value <= s
    requires forall i | 0 <= i < |fs| :: fs[i].value <= f && ks[i].value <= s
    requires Some(f) in indexed || exists i | 0 <= i < |fs| :: fs[i] == Some(f)
    requires Some(s) in indexed || exists i | 0 <= i < |ks| :: ks[i] == Some(s)
    ensures f <= s <= f + 1 && (s == f <==> forall i | 0 <= i < |fs| && fs[i] == Some(f) :: ks[i] == fs[i])
  {
    if Some(s) !in indexed {
      var i :| 0 <= i < |ks| && ks[i] == Some(s);
      assert fs[i].value <= f;
    }
    if Some(f) !in indexed {
      var i :| 0 <= i < |fs| && fs[i] == Some(f);
      assert ks[i].value <= s;
    }
  }

  /** The lowest price moves exactly when every price at the bottom was raised. */
  lemma {:induction false} RaisedLowest(indexed: seq<Option<nat>>, fs: seq<Option<nat>>, ks: seq<Option<nat>>)
    requires AllSome(indexed) && Raised(fs, ks) && fs != []
    ensures AllSome(indexed + fs) && AllSome(indexed + ks)
    ensures var f, s := Lowest(indexed + fs), Lowest(indexed + ks);
      f <= s <= f + 1
      && (s == f <==> Some(f) in indexed || exists i | 0 <= i < |fs| :: fs[i] == Some(f) && ks[i] == fs[i])
  {
    SomeJoin(indexed, fs, ks);
    LowestBounds(indexed, fs);
    LowestBounds(indexed, ks);
    LowestRaised(indexed, fs, ks, Lowest(indexed + fs), Lowest(indexed + ks));
  }

  lemma {:induction false} LowestRaised(indexed: seq<Option<nat>>, fs: seq<Option<nat>>, ks: seq<Option<nat>>, f: nat,
                                        s: nat)
    requires Raised(fs, ks) && forall p | p in indexed :: p.Some? && f <= p.value && s <= p.value
    requires forall i | 0 <= i < |fs| :: f <= fs[i].value && s <= ks[i].value
    requires Some(f) in indexed || exists i | 0 <= i < |fs| :: fs[i] == Some(f)
    requires Some(s) in indexed || exists i | 0 <= i < |ks| :: ks[i] == Some(s)
    ensures f <= s <= f + 1
    ensures s == f <==> Some(f) in indexed || exists i | 0 <= i < |fs| :: fs[i] == Some(f) && ks[i] == fs[i]
  {
    if Some(s) !in indexed {
      var i :| 0 <= i < |ks| && ks[i] == Some(s);
      assert f <= fs[i].value;
    }
    if Some(f) !in indexed {
      var i :| 0 <= i < |fs| && fs[i] == Some(f);
      assert s <= ks[i].value;
    }
  }

  // ---------------------------------------------------------------- hand-off

  /** The page's count columns are the candle's. */
  predicate Counted(p: Point, c: Candle) {
    p.trades == c.trades && p.buys == c.buys && p.sells == c.sells && p.volume == c.volume
  }

  /** The point is the candle, up to the trader count, which live events cannot know. */
  ghost predicate Like(p: Point, c: Candle) {
    p == PointOf(p.bucket, c).(traders := p.traders)
  }

  ghost predicate AllLike(chart: Chart, candles: map<int, Candle>) {
    chart.Keys == candles.Keys && forall b | b in chart :: Like(chart[b], candles[b])
  }

  /** The page's price is the query's or one less. */
  predicate Under(shown: Option<nat>, price: nat) {
    shown.Some? && shown.value <= price <= shown.value + 1
  }

  predicate AllUnder(p: Point, prices: Ohlc) {
    Under(p.open, prices.open) && Under(p.high, prices.high) && Under(p.low, prices.low) && Under(p.close, prices.close)
  }

  /** The four price columns are null or not together. */
  predicate NullTogether(p: Point) {
    p.open.None? == p.high.None? && p.open.None? == p.low.None? && p.open.None? == p.close.None?
  }

  /** A bucket agrees when it has no live trade; or no stored price is missing and SQL's digits carry
      neither the trade that opens it, nor the one that closes it, nor one at the page's high, nor all
      that are at the page's low. */
  ghost predicate Settles(stored: seq<Option<nat>>, live: seq<Placed>, digits: Digits)
    requires Pooled(live)
  {
    live == [] || (AllSome(stored) &&
      assert forall p | p in live :: p.trade.tokens > 0;
      PageSome(stored, live);
      var page := Page(stored, live);
      (stored == [] ==> !PriceRoundsUp(live[0].trade, digits))
      && !PriceRoundsUp(live[|live| - 1].trade, digits)
      && (forall i | 0 <= i < |live| && Floors(live)[i] == Some(Highest(page)) :: !PriceRoundsUp(live[i].trade, digits))
      && (Some(Lowest(page)) in stored
          || exists i | 0 <= i < |live| ::
            Floors(live)[i] == Some(Lowest(page)) && !PriceRoundsUp(live[i].trade, digits)))
  }

  /** What one bucket of the page is to the query's candle. */
  ghost predicate BucketHandsOff(p: Point, c: Candle, stored: seq<Option<nat>>, live: seq<Placed>, digits: Digits)
    requires Pooled(live)
  {
    Counted(p, c) && NullTogether(p)
    && (p.open.None? ==> c.prices.None?)
    && (p.open.Some? && c.prices.None? <==> live != [] && !AllSome(stored))
    && (c.prices.Some? ==> AllUnder(p, c.prices.value))
    && (Like(p, c) <==> Settles(stored, live, digits))
  }

  ghost predicate OhlcUnder(page: Ohlc, query: Ohlc) {
    Under(Some(page.open), query.open) && Under(Some(page.high), query.high)
    && Under(Some(page.low), query.low) && Under(Some(page.close), query.close)
  }

  lemma {:induction false} Ends(a: seq<Option<nat>>, b: seq<Option<nat>>)
    requires b != []
    ensures (a + b)[0] == if a == [] then b[0] else a[0]
    ensures (a + b)[|a + b| - 1] == b[|b| - 1]
  {
  }

  lemma {:induction false} PricedHandOff(stored: seq<Option<nat>>, live: seq<Placed>, digits: Digits)
    requires Pooled(live) && live != [] && AllSome(stored)
    ensures var q, r := Prices(Page(stored, live)), Prices(stored + Kept(live, digits));
      q.Some? && r.Some? && OhlcUnder(q.value, r.value) && (q == r <==> Settles(stored, live, digits))
  {
    var fs, ks := Floors(live), Kept(live, digits);
    RaisedIff(live, digits);
    PageSome(stored, live);
    PricesNone(stored + fs);
    PricesNone(stored + ks);
    RaisedHighest(stored, fs, ks);
    RaisedLowest(stored, fs, ks);
    assert live[0] in live && live[|live| - 1] in live;
    Ends(stored, fs);
    Ends(stored, ks);
  }

  lemma {:induction false} LikePrices(p: Point, c: Candle, prices: Option<Ohlc>)
    requires Counted(p, c) && p == PointOf(p.bucket, c.(prices := prices)).(traders := p.traders)
    ensures NullTogether(p) && (p.open.Some? <==> prices.Some?)
    ensures Like(p, c) <==> prices == c.prices
    ensures prices.Some? && c.prices.Some? && OhlcUnder(prices.value, c.prices.value) ==> AllUnder(p, c.prices.value)
  {
  }

  lemma {:induction false} SameUnder(prices: Ohlc)
    ensures OhlcUnder(prices, prices)
  {
  }

  lemma {:induction false} PricesHandOff(stored: seq<Option<nat>>, live: seq<Placed>, digits: Digits, p: Point,
                                         c: Candle)
    requires Pooled(live) && Counted(p, c)
    requires c.prices == Prices(stored + Kept(live, digits))
    requires p == PointOf(p.bucket, c.(prices := Prices(Page(stored, live)))).(traders := p.traders)
    ensures BucketHandsOff(p, c, stored, live, digits)
  {
    LikePrices(p, c, Prices(Page(stored, live)));
    if live == [] {
      PricesNone(stored);
      PricesNone([]);
      assert Page(stored, live) == if AllSome(stored) then stored else [];
      assert stored + Kept(live, digits) == stored;
      if c.prices.Some? { SameUnder(c.prices.value); }
    } else if AllSome(stored) {
      PricedHandOff(stored, live, digits);
    } else {
      var missing :| missing in stored && missing.None?;
      assert missing in stored + Kept(live, digits);
      PageSome(stored, live);
      PricesNone(Page(stored, live));
    }
  }

  /** What the page's chart is to the query's candles. */
  ghost predicate HandsOffAll(chart: Chart, candles: map<int, Candle>, before: seq<Placed>, ts: seq<Placed>,
                              bucket: Buckets,
                              virtualReserve: nat, digits: Digits)
    requires Pooled(ts)
  {
    chart.Keys == candles.Keys
    && forall b | b in chart :: Pooled(Members(ts, bucket, b))
         && chart[b].traders == Tally(Members(before, bucket, b), None).traders
         && BucketHandsOff(chart[b], candles[b], Stored(before, bucket, b, virtualReserve, digits),
           Members(ts, bucket, b), digits)
  }

  /** Hand-off of the candles: live pool trades drawn on the indexed candles, for every interval and
      cut-off. The buckets and their counts and volume are those of the query once the trades are
      indexed. A price is the query's or one less. A column is null where the query's is, except
      in a bucket with a missing stored price that a live trade falls in, which the page shows. The
      whole bucket agrees exactly when it settles; the trader count stays the indexed one. */
  lemma {:induction false} CandleHandOff(before: seq<Placed>, ts: seq<Placed>, events: seq<Live>, iv: Interval,
                                         virtualReserve: nat, digits: Digits)
    requires iv.Valid() && Pooled(ts) && OnChain(ts)
    requires multiset(events) == multiset(LivesOf(ts)) && OneEach(events)
    ensures Sorted(events) == LivesOf(ts)
    ensures HandsOffAll(DrewAll(PointsOf(Candles(before, Bucketing(iv), virtualReserve, digits)), Sorted(events), iv),
                        Candles(before + ts, Bucketing(iv), virtualReserve, digits),
                        before, ts, Bucketing(iv), virtualReserve, digits)
  {
    var bucket := Bucketing(iv);
    LivesSorted(events, ts);
    DrewShows(before, ts, iv, virtualReserve, digits);
    CandlesAt(before + ts, bucket, virtualReserve, digits);
    forall b | b in BucketKeys(before + ts, bucket)
      ensures Pooled(Members(ts, bucket, b))
      ensures PagePoint(before, ts, bucket, b, virtualReserve, digits).traders
        == Tally(Members(before, bucket, b), None).traders
      ensures BucketHandsOff(PagePoint(before, ts, bucket, b, virtualReserve, digits),
                             CandleAt(before + ts, bucket, b, virtualReserve, digits),
                             Stored(before, bucket, b, virtualReserve, digits), Members(ts, bucket, b), digits)
    {
      PooledPart(ts, bucket, b);
      StoredJoin(before, ts, bucket, b, virtualReserve, digits);
      PricesHandOff(Stored(before, bucket, b, virtualReserve, digits), Members(ts, bucket, b), digits,
                    PagePoint(before, ts, bucket, b, virtualReserve, digits),
                      CandleAt(before + ts, bucket, b, virtualReserve, digits));
    }
  }

  /** The whole chart agrees exactly when every bucket settles. */
  lemma {:induction false} ChartAgreesIff(before: seq<Placed>, ts: seq<Placed>, events: seq<Live>, iv: Interval,
                                          virtualReserve: nat, digits: Digits)
    requires iv.Valid() && Pooled(ts) && OnChain(ts)
    requires multiset(events) == multiset(LivesOf(ts)) && OneEach(events)
    ensures Sorted(events) == LivesOf(ts)
    ensures AllLike(DrewAll(PointsOf(Candles(before, Bucketing(iv), virtualReserve, digits)), Sorted(events), iv),
                    Candles(before + ts, Bucketing(iv), virtualReserve, digits))
      <==> forall b | b in BucketKeys(before + ts, Bucketing(iv)) :: Pooled(Members(ts, Bucketing(iv), b))
             && Settles(Stored(before, Bucketing(iv), b, virtualReserve, digits), Members(ts, Bucketing(iv), b), digits)
  {
    CandleHandOff(before, ts, events, iv, virtualReserve, digits);
    CandlesAt(before + ts, Bucketing(iv), virtualReserve, digits);
  }

  /** A sell whose buys were not indexed leaves its bucket without prices. */
  const UNBOUGHT := Placed(Order.Pos(0, 0, 0, 0), 10, Trade(7, 8, Sell, 1, 1, 1, 0, 0, CurveSource, 0))

  lemma {:induction false} OneTrade(p: Placed, iv: Interval, virtualReserve: nat, digits: Digits)
    requires iv.Valid()
    ensures var b, bucket := BucketStart(iv, p.time), Bucketing(iv);
      BucketKeys([p], bucket) == {b} && Members([p], bucket, b) == [p]
      && Stored([p], bucket, b, virtualReserve, digits) == [PriceAt([p], 0, virtualReserve, digits)]
  {
    var b, bucket := BucketStart(iv, p.time), Bucketing(iv);
    KeysStep([], p, bucket);
    MembersStep([], p, bucket, b);
    assert [] + [p] == [p] && bucket(p.time) == b;
    assert MemberPrices([p], 0, bucket, b, virtualReserve, digits) == [];
  }

  /** In a bucket with a missing stored price a live trade is shown that the query hides. */
  lemma {:induction false} UnpricedShown(before: seq<Placed>, ts: seq<Placed>, iv: Interval, b: int,
                                         virtualReserve: nat, digits: Digits)
    requires iv.Valid() && Pooled(ts) && OnChain(ts)
    requires !AllSome(Stored(before, Bucketing(iv), b, virtualReserve, digits)) && Members(ts, Bucketing(iv), b) != []
    ensures var chart := DrewAll(PointsOf(Candles(before, Bucketing(iv), virtualReserve, digits)), LivesOf(ts), iv);
      var candles := Candles(before + ts, Bucketing(iv), virtualReserve, digits);
      b in chart && b in candles && chart[b].open.Some? && candles[b].prices.None?
  {
    forall i, j | 0 <= i < j < |ts| ensures LivesOf(ts)[i].Identity() != LivesOf(ts)[j].Identity() {
      assert LiveOf(ts[i]).Identity() != LiveOf(ts[j]).Identity();
    }
    CandleHandOff(before, ts, LivesOf(ts), iv, virtualReserve, digits);
    NoneYet(ts, Bucketing(iv), b, virtualReserve, digits);
    KeysJoin(before, ts, Bucketing(iv));
    CandlesAt(before + ts, Bucketing(iv), virtualReserve, digits);
  }

  lemma {:induction false} NothingBought(virtualReserve: nat, digits: Digits)
    ensures PriceAt([UNBOUGHT], 0, virtualReserve, digits).None?
  {
  }

  /** Such a bucket, for every interval and whatever digits are kept. */
  lemma {:induction false} NullShown(iv: Interval, virtualReserve: nat, digits: Digits)
    requires iv.Valid()
    ensures var chart := DrewAll(PointsOf(Candles([UNBOUGHT], Bucketing(iv), virtualReserve, digits)),
      LivesOf([CARRIED]), iv);
      var candles := Candles([UNBOUGHT] + [CARRIED], Bucketing(iv), virtualReserve, digits);
      BucketStart(iv, 10) in chart && BucketStart(iv, 10) in candles
      && chart[BucketStart(iv, 10)].open.Some? && candles[BucketStart(iv, 10)].prices.None?
  {
    OneTrade(UNBOUGHT, iv, virtualReserve, digits);
    OneTrade(CARRIED, iv, virtualReserve, digits);
    NothingBought(virtualReserve, digits);
    var stored := Stored([UNBOUGHT], Bucketing(iv), BucketStart(iv, 10), virtualReserve, digits);
    assert stored[0] in stored;
    UnpricedShown([UNBOUGHT], [CARRIED], iv, BucketStart(iv, 10), virtualReserve, digits);
  }

  /** Kept to 16 digits or fewer, one live trade opens a bucket of its own one below the query's. */
  lemma {:induction false} OpensLow(iv: Interval, virtualReserve: nat, digits: Digits)
    requires iv.Valid() && digits(WAD * USDC_TO_WAD, CARRIED.trade.tokens) <= 16
    ensures var b, bucket := BucketStart(iv, 10), Bucketing(iv);
      var chart, candles := DrewAll(map[], [LiveOf(CARRIED)], iv), Candles([CARRIED], bucket, virtualReserve, digits);
      b in chart && chart[b].open == Some(357640) && b in candles && candles[b].prices.Some?
      && candles[b].prices.value.open == 357641
  {
    PriceCarries(digits);
    OneTrade(CARRIED, iv, virtualReserve, digits);
    BucketsAligned(iv, 10);
    CandlesAt([CARRIED], Bucketing(iv), virtualReserve, digits);
    DrewKeys(map[], LiveOf(CARRIED), iv, BucketStart(iv, 10));
    assert DrewAll(map[], [LiveOf(CARRIED)], iv) == Drew(map[], LiveOf(CARRIED), iv) by {
      assert [LiveOf(CARRIED)][..0] == [];
    }
    PricesNone([PoolPrice(CARRIED.trade, digits)]);
  }

  ghost predicate AllPriced(candles: map<int, Candle>) {
    forall b | b in candles :: candles[b].prices.Some?
  }

  /** Pool trades whose SQL price is the exact quotient. */
  ghost predicate Exact(ts: seq<Placed>, digits: Digits) {
    forall p | p in ts :: p.trade.source.PoolSource? && p.trade.tokens > 0 && !PriceRoundsUp(p.trade, digits)
  }

  lemma {:induction false} ExactPart(ts: seq<Placed>, bucket: Buckets, b: int, digits: Digits)
    requires Exact(ts, digits)
    ensures Exact(Members(ts, bucket, b), digits)
    decreases |ts|
  {
    if ts != [] {
      assert forall p | p in ts[..|ts| - 1] :: p in ts;
      assert ts[|ts| - 1] in ts;
      ExactPart(ts[..|ts| - 1], bucket, b, digits);
    }
  }

  lemma {:induction false} ExactSettles(stored: seq<Option<nat>>, live: seq<Placed>, digits: Digits)
    requires Exact(live, digits) && AllSome(stored)
    ensures Pooled(live) && Settles(stored, live, digits)
  {
    if live != [] {
      assert live[0] in live && live[|live| - 1] in live;
      assert forall i | 0 <= i < |live| :: live[i] in live;
      PageSome(stored, live);
      var page := Page(stored, live);
      assert Floors(live)[0] in page;
      PriceBounds(page, Floors(live)[0]);
      if Some(Lowest(page)) !in stored {
        assert Some(Lowest(page)) in Floors(live);
      }
    }
  }

  /** Exact trades on priced candles draw exactly what the query will return. */
  lemma {:induction false} ExactHandOff(before: seq<Placed>, ts: seq<Placed>, events: seq<Live>, iv: Interval,
                                        virtualReserve: nat, digits: Digits)
    requires iv.Valid() && Exact(ts, digits) && OnChain(ts)
    requires multiset(events) == multiset(LivesOf(ts)) && OneEach(events)
    requires AllPriced(Candles(before, Bucketing(iv), virtualReserve, digits))
    ensures Sorted(events) == LivesOf(ts)
    ensures AllLike(DrewAll(PointsOf(Candles(before, Bucketing(iv), virtualReserve, digits)), Sorted(events), iv),
                    Candles(before + ts, Bucketing(iv), virtualReserve, digits))
  {
    var bucket := Bucketing(iv);
    CandleHandOff(before, ts, events, iv, virtualReserve, digits);
    CandlesAt(before, bucket, virtualReserve, digits);
    forall b ensures Pooled(Members(ts, bucket, b))
      && Settles(Stored(before, bucket, b, virtualReserve, digits), Members(ts, bucket, b), digits)
    {
      var stored := Stored(before, bucket, b, virtualReserve, digits);
      NoneYet(before, bucket, b, virtualReserve, digits);
      PricesNone(stored);
      ExactPart(ts, bucket, b, digits);
      ExactSettles(stored, Members(ts, bucket, b), digits);
    }
  }
}
