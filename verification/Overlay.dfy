/** The page's provisional overlay: live trades newer than the indexed snapshot are folded into its
    metrics and candles. For graduated trades the result must be what the indexer will say. */
module Overlay {
  import opened Wrappers
  import opened Chain
  import opened Numeric
  import opened Sums
  import opened Analytics
  import Order
  import Sorting
  import Swaps

  /** A parsed realtime trade. Its identity is (chain, transaction hash, log index). */
  datatype Live = Live(block: nat, index: nat, tx: Hash, time: Option<nat>, source: Source, side: Side,
                       tokens: nat, usdc: nat, decimals: nat)
  {
    function Identity(): LogKey { LogKey(tx, index) }
    function Clock(): int { if time.None? then -1 else time.value }

    /** What parsing accepts. */
    predicate Valid() { decimals == 6 || decimals == 18 }
  }

  /** chainOrder: time, block, log index, identity. */
  predicate Earlier(a: Live, b: Live) {
    a.Clock() < b.Clock() || (a.Clock() == b.Clock() &&
      (a.block < b.block || (a.block == b.block &&
        (a.index < b.index || (a.index == b.index && a.tx < b.tx)))))
  }

  /** The live feed never holds two events of one identity. */
  ghost predicate OneEach(events: seq<Live>) {
    forall i, j | 0 <= i < j < |events| :: events[i].Identity() != events[j].Identity()
  }

  function Sorted(events: seq<Live>): seq<Live> {
    Sorting.Sort(events, Earlier)
  }

  lemma {:induction false} SortedIs(events: seq<Live>, inOrder: seq<Live>)
    requires OneEach(events) && Sorting.Ascending(inOrder, Earlier) && multiset(events) == multiset(inOrder)
    ensures Sorted(events) == inOrder
  {
    forall a, b | a in events && b in events && a != b ensures Earlier(a, b) || Earlier(b, a) {
      var i, j :| 0 <= i < |events| && 0 <= j < |events| && events[i] == a && events[j] == b;
      assert i < j || j < i;
    }
    forall x ensures x in events <==> x in inOrder {
      assert x in events <==> x in multiset(events);
      assert x in inOrder <==> x in multiset(inOrder);
    }
    assert forall i, j | 0 <= i < j < |events| :: events[i] != events[j];
    Sorting.SortIs(events, inOrder, Earlier);
  }

  lemma {:induction false} SortedAscending(events: seq<Live>)
    requires OneEach(events)
    ensures Sorting.Ascending(Sorted(events), Earlier) && multiset(Sorted(events)) == multiset(events)
  {
    forall a, b | a in events && b in events && a != b ensures Earlier(a, b) || Earlier(b, a) {
      var i, j :| 0 <= i < |events| && 0 <= j < |events| && events[i] == a && events[j] == b;
      assert i < j || j < i;
    }
    assert forall i, j | 0 <= i < j < |events| :: events[i] != events[j];
    Sorting.Sorts(events, Earlier);
    Sorting.SortPermutes(events, Earlier);
  }

  /** Untimed before timed, then by time, block, log index and transaction. */
  predicate Ordered(a: Live, b: Live) {
    (a.time.None? && b.time.Some?)
    || (a.time.Some? && b.time.Some? && a.time.value < b.time.value)
    || (a.time == b.time && a.block < b.block)
    || (a.time == b.time && a.block == b.block && a.index < b.index)
    || (a.time == b.time && a.block == b.block && a.index == b.index && a.tx < b.tx)
  }

  /** Sorting lists the same trades in that order. */
  lemma {:induction false} SortedOrdered(events: seq<Live>)
    requires OneEach(events)
    ensures multiset(Sorted(events)) == multiset(events)
    ensures forall i, j | 0 <= i < j < |Sorted(events)| :: Ordered(Sorted(events)[i], Sorted(events)[j])
  {
    SortedAscending(events);
  }

  // ---------------------------------------------------------------- price and volume

  /** realtimePrice: exact BigInt division, null for a zero token amount. */
  function LivePrice(e: Live): Option<nat>
    requires e.Valid()
  {
    if e.tokens == 0 then None
    else Some(Floor(e.usdc * (if e.decimals == 6 then WAD * USDC_TO_WAD else WAD), e.tokens))
  }

  /** realtimeVolume: native units of 18 decimals. */
  function LiveVolume(e: Live): nat
    requires e.Valid()
  {
    if e.decimals == 6 then e.usdc * USDC_TO_WAD else e.usdc
  }

  /** The trade in native units of 18 decimals: the USDC it moved for the tokens it moved. */
  ghost predicate Moves(e: Live, native: nat) {
    if e.decimals == 6 then native == e.usdc * 1_000_000_000_000 else native == e.usdc
  }

  /** Equal amounts weigh the same whatever decimals they came in: volume is the native amount and the
      price is the greatest whole number of native units per whole token. */
  lemma {:induction false} DecimalsAlike(e: Live, native: nat)
    requires e.Valid() && Moves(e, native)
    ensures LiveVolume(e) == native
    ensures LivePrice(e).None? <==> e.tokens == 0
    ensures e.tokens > 0 ==>
      LivePrice(e).value * e.tokens <= native * 1_000_000_000_000_000_000 < LivePrice(e).value * e.tokens + e.tokens
  {
  }

  function Volumes(events: seq<Live>): nat
    requires forall e | e in events :: e.Valid()
    decreases |events|
  {
    if events == [] then 0
    else Volumes(events[..|events| - 1]) + LiveVolume(events[|events| - 1])
  }

  // ---------------------------------------------------------------- metrics

  /** overlayMetrics: volume, count, price and diluted value move; the other columns stay. */
  function OverlayMetrics(m: Metrics, supply: nat, events: seq<Live>): Metrics
    requires forall e | e in Sorted(events) :: e.Valid()
  {
    Overlaid(m, supply, Sorted(events))
  }

  function Overlaid(m: Metrics, supply: nat, sorted: seq<Live>): Metrics
    requires forall e | e in sorted :: e.Valid()
  {
    var price := if sorted == [] then None else LivePrice(sorted[|sorted| - 1]);
    m.(price := if price.Some? then price else m.price,
       diluted := if price.Some? then Some(Floor(price.value * supply, WAD)) else m.diluted,
       volume := m.volume + Volumes(sorted),
       trades := m.trades + |sorted|)
  }

  /** The live event of an indexed pool trade. */
  function LiveOf(p: Placed): Live {
    Live(p.pos.block, p.pos.index, p.pos.tx, Some(p.time), PoolSource, p.trade.side, p.trade.tokens, p.trade.reserve, 6)
  }

  function LivesOf(ts: seq<Placed>): (r: seq<Live>)
    ensures |r| == |ts| && forall i | 0 <= i < |ts| :: r[i] == LiveOf(ts[i])
    ensures forall e | e in r :: e.Valid()
  {
    seq(|ts|, i requires 0 <= i < |ts| => LiveOf(ts[i]))
  }

  /** Chain order as both sides see it: block times never run backwards and log indexes count through a block. */
  ghost predicate OnChain(ts: seq<Placed>) {
    forall i, j | 0 <= i < j < |ts| ::
      Earlier(LiveOf(ts[i]), LiveOf(ts[j])) && LiveOf(ts[i]).Identity() != LiveOf(ts[j]).Identity()
  }

  /** Graduated trades: executed pool swaps. */
  ghost predicate Pooled(ts: seq<Placed>) {
    forall p | p in ts :: p.trade.source.PoolSource? && p.trade.tokens > 0
  }

  lemma {:induction false} LivesSorted(events: seq<Live>, ts: seq<Placed>)
    requires OnChain(ts) && multiset(events) == multiset(LivesOf(ts)) && OneEach(events)
    ensures Sorted(events) == LivesOf(ts)
  {
    SortedIs(events, LivesOf(ts));
  }

  lemma {:induction false} VolumesStep(init: seq<Placed>, last: Placed)
    requires last.trade.source.PoolSource?
    ensures Volumes(LivesOf(init + [last])) == Volumes(LivesOf(init)) + VolumeOf(last.trade)
  {
    var lives := LivesOf(init + [last]);
    assert lives[..|lives| - 1] == LivesOf(init);
    assert lives[|lives| - 1] == LiveOf(last);
  }

  lemma {:induction false} VolumesAre(ts: seq<Placed>)
    requires Pooled(ts)
    ensures Volumes(LivesOf(ts)) == Sum(VolumeOf, ts)
    decreases |ts|
  {
    if ts != [] {
      var init, last := ts[..|ts| - 1], ts[|ts| - 1];
      assert ts == init + [last];
      assert last in ts && forall p | p in init :: p in ts;
      VolumesAre(init);
      VolumesStep(init, last);
      MembersSum(init, last, VolumeOf);
    }
  }

  lemma {:induction false} SumJoin(f: Measure, a: seq<Placed>, b: seq<Placed>)
    ensures Sum(f, a + b) == Sum(f, a) + Sum(f, b)
    decreases |b|
  {
    if b == [] {
      assert a + b == a;
    } else {
      var init, last := b[..|b| - 1], b[|b| - 1];
      SumJoin(f, a, init);
      assert b == init + [last] && a + b == (a + init) + [last];
      MembersSum(a + init, last, f);
      MembersSum(init, last, f);
    }
  }

  lemma {:induction false} CountIsLength(m: seq<Placed>)
    ensures Sum(One, m) == |m|
    decreases |m|
  {
    if m != [] { CountIsLength(m[..|m| - 1]); }
  }

  lemma {:induction false} VolumesAgree(before: seq<Placed>, ts: seq<Placed>)
    requires Pooled(ts)
    ensures Sum(VolumeOf, before + ts) == Sum(VolumeOf, before) + Volumes(LivesOf(ts))
    ensures Sum(One, before + ts) == Sum(One, before) + |ts|
  {
    SumJoin(VolumeOf, before, ts);
    SumJoin(One, before, ts);
    CountIsLength(ts);
    VolumesAre(ts);
  }

  lemma {:induction false} LastIsLatest(before: seq<Placed>, ts: seq<Placed>)
    requires Pooled(ts) && ts != []
    ensures LastPool(before + ts) == Some(ts[|ts| - 1].trade)
  {
    assert (before + ts)[|before + ts| - 1] == ts[|ts| - 1] && ts[|ts| - 1] in ts;
  }

  /** The kept digits round this pool price up to the next integer. */
  predicate PriceRoundsUp(t: Trade, digits: Digits)
    requires t.tokens > 0
  {
    var a := t.reserve * (WAD * USDC_TO_WAD);
    RoundsUp(a, t.tokens, digits(a, t.tokens))
  }

  /** The kept digits round this diluted value up to the next integer. */
  predicate DilutedRoundsUp(price: nat, supply: nat, digits: Digits) {
    RoundsUp(price * supply, WAD, digits(price * supply, WAD))
  }

  lemma {:induction false} DilutedAgreeIff(price: nat, supply: nat, digits: Digits)
    ensures Some(Floor(price * supply, WAD)) == DilutedValue(Some(price), supply, digits)
      <==> !DilutedRoundsUp(price, supply, digits)
  {
    FloorSqlExact(price * supply, WAD, digits(price * supply, WAD));
  }

  /** The metrics of a live tail. */
  ghost predicate HandsOff(m: Metrics, overlaid: Metrics, last: Option<Trade>, supply: nat, digits: Digits)
    requires last.Some? ==> last.value.tokens > 0
  {
    overlaid.volume == m.volume && overlaid.trades == m.trades
    && (if last.None? then overlaid.price == m.price && overlaid.diluted == m.diluted
        else ((overlaid.price == m.price <==> !PriceRoundsUp(last.value, digits))
              && (overlaid.price == m.price ==> m.price.Some?)
              && (overlaid.price == m.price ==>
                (overlaid.diluted == m.diluted <==> !DilutedRoundsUp(m.price.value, supply, digits)))))
  }

  function LastOf(ts: seq<Placed>): Option<Trade> {
    if ts == [] then None else Some(ts[|ts| - 1].trade)
  }

  /** Hand-off of the metrics: overlaying the pool trades after any cut-off on the metrics indexed
      before it gives the indexer's own volume and trade count over all of them, and its price and
      diluted value exactly when SQL's rounding does not carry a quotient to the next integer. */
  lemma {:induction false} MetricsHandOff(before: seq<Placed>, ts: seq<Placed>, events: seq<Live>, supply: nat,
                                          virtualReserve: nat, digits: Digits)
    requires Pooled(ts) && OnChain(ts) && multiset(events) == multiset(LivesOf(ts)) && OneEach(events)
    ensures Sorted(events) == LivesOf(ts) && (ts != [] ==> ts[|ts| - 1] in ts)
    ensures HandsOff(MetricsOf(before + ts, supply, virtualReserve, digits),
                     OverlayMetrics(MetricsOf(before, supply, virtualReserve, digits), supply, events), LastOf(ts),
                       supply, digits)
  {
    LivesSorted(events, ts);
    VolumesAgree(before, ts);
    if ts == [] {
      assert before + ts == before;
    } else {
      LastIsLatest(before, ts);
      PriceHandOff(before, ts, supply, virtualReserve, digits);
    }
  }

  lemma {:induction false} PriceHandOff(before: seq<Placed>, ts: seq<Placed>, supply: nat, virtualReserve: nat,
                                        digits: Digits)
    requires Pooled(ts) && ts != [] && LastPool(before + ts) == LastOf(ts) && LastOf(ts).value.tokens > 0
    requires LastOf(ts).value.source.PoolSource?
    requires Sum(VolumeOf, before + ts) == Sum(VolumeOf, before) + Volumes(LivesOf(ts))
    requires Sum(One, before + ts) == Sum(One, before) + |ts|
    ensures HandsOff(MetricsOf(before + ts, supply, virtualReserve, digits),
                     Overlaid(MetricsOf(before, supply, virtualReserve, digits), supply, LivesOf(ts)), LastOf(ts),
                       supply, digits)
  {
    PricesAgreeIff(ts[|ts| - 1], digits);
    DilutedAgreeIff(LivePrice(LiveOf(ts[|ts| - 1])).value, supply, digits);
  }

  lemma {:induction false} PricesAgreeIff(p: Placed, digits: Digits)
    requires p.trade.source.PoolSource? && p.trade.tokens > 0
    ensures LivePrice(LiveOf(p)) == PoolPrice(p.trade, digits) <==> !PriceRoundsUp(p.trade, digits)
    ensures LivePrice(LiveOf(p)).Some? && PoolPrice(p.trade, digits).Some?
  {
    var a := p.trade.reserve * (WAD * USDC_TO_WAD);
    FloorSqlExact(a, p.trade.tokens, digits(a, p.trade.tokens));
  }

  const CARRIED := Placed(Order.Pos(1, 0, 0, 1), 10,
    Trade(7, 8, Buy, 2796099999720390000027961, 1, 0, 0, 0, PoolSource, 0))

  /** The carry happens: kept to 16 digits or fewer, one unit of USDC for this many tokens is priced
      357640 by the page and 357641 by the index. */
  lemma {:induction false} PriceCarries(digits: Digits)
    requires digits(WAD * USDC_TO_WAD, CARRIED.trade.tokens) <= 16
    ensures PriceRoundsUp(CARRIED.trade, digits)
    ensures LivePrice(LiveOf(CARRIED)) == Some(357640) && PoolPrice(CARRIED.trade, digits) == Some(357641)
  {
    var a, b := WAD * USDC_TO_WAD, CARRIED.trade.tokens;
    FloorUnique(a, b, 357640);
    Pow10Monotone(digits(a, b), 16);
    assert Pow10(8) == 100_000_000 && Pow10(16) == 10_000_000_000_000_000;
    FloorSqlExact(a, b, digits(a, b));
  }

  // ---------------------------------------------------------------- candles

  /** A chart point; prices are null in a bucket with an unpriced trade. */
  datatype Point = Point(bucket: int, trades: nat, buys: nat, sells: nat, volume: nat, traders: nat,
                         open: Option<nat>, high: Option<nat>, low: Option<nat>, close: Option<nat>)

  type Chart = map<int, Point>

  function Seconds(iv: Interval): (s: nat)
    requires iv.Valid()
    ensures s > 0
  {
    match iv
    case Every(seconds) => seconds
    case Weekly => 604800
  }

  /** Math.floor((time - origin) / seconds) * seconds + origin; weeks count from a Monday. */
  function OverlayBucket(iv: Interval, time: nat): int
    requires iv.Valid()
  {
    var origin := if iv.Weekly? then 4 * 86400 else 0;
    (time - origin) / Seconds(iv) * Seconds(iv) + origin
  }

  /** The page and the SQL cut time at the same instants, and a bucket contains its trades. */
  lemma {:induction false} BucketsAligned(iv: Interval, time: nat)
    requires iv.Valid()
    ensures OverlayBucket(iv, time) == BucketStart(iv, time)
    ensures OverlayBucket(iv, time) <= time < OverlayBucket(iv, time) + Seconds(iv)
  {
    var seconds := Seconds(iv);
    match iv {
      case Every(_) => assert time == time / seconds * seconds + time % seconds;
      case Weekly => WeeksAligned(time);
    }
  }

  lemma {:induction false} DivUnique(a: int, b: int, q: int, r: int)
    requires a == q * b + r && 0 <= r < b
    ensures a / b == q
  {
    var p, m := a / b, a % b;
    assert a == p * b + m;
    MulCancel(p, q + 1, b) by { Spread(q, 1, b); }
    MulCancel(q, p + 1, b) by { Spread(p, 1, b); }
  }

  lemma {:induction false} WeeksAligned(time: nat)
    ensures (time - 345600) / 604800 * 604800 + 345600 == WeekStart(time)
    ensures WeekStart(time) <= time < WeekStart(time) + 604800
  {
    var day, rest := time / 86400, time % 86400;
    var week, sinceMonday := (day + 3) / 7, (day + 3) % 7;
    assert time == 86400 * day + rest && day + 3 == 7 * week + sinceMonday;
    assert time - 345600 == (week - 1) * 604800 + (86400 * sinceMonday + rest);
    DivUnique(time - 345600, 604800, week - 1, 86400 * sinceMonday + rest);
    assert WeekStart(time) == (day - sinceMonday) * 86400;
  }

  function MaxOf(high: Option<nat>, price: nat): nat {
    if high.None? || high.value < price then price else high.value
  }

  function MinOf(low: Option<nat>, price: nat): nat {
    if low.None? || low.value > price then price else low.value
  }

  function Opened(e: Live, bucket: int, price: nat): Point
    requires e.Valid()
  {
    Point(bucket, 1, if e.side.Buy? then 1 else 0, if e.side.Sell? then 1 else 0, LiveVolume(e), 0,
          Some(price), Some(price), Some(price), Some(price))
  }

  function Extended(c: Point, e: Live, price: nat): Point
    requires e.Valid()
  {
    c.(trades := c.trades + 1, buys := c.buys + (if e.side.Buy? then 1 else 0),
       sells := c.sells + (if e.side.Sell? then 1 else 0),
       volume := c.volume + LiveVolume(e), open := Some(if c.open.Some? then c.open.value else price),
       high := Some(MaxOf(c.high, price)), low := Some(MinOf(c.low, price)), close := Some(price))
  }

  /** Only timed, priced trades are drawn. */
  predicate Drawn(e: Live)
    requires e.Valid()
  {
    e.time.Some? && LivePrice(e).Some?
  }

  function Drew(chart: Chart, e: Live, iv: Interval): Chart
    requires iv.Valid() && e.Valid()
  {
    if !Drawn(e) then chart
    else
      var bucket, price := OverlayBucket(iv, e.time.value), LivePrice(e).value;
      chart[bucket := if bucket in chart then Extended(chart[bucket], e, price) else Opened(e, bucket, price)]
  }

  function DrewAll(chart: Chart, events: seq<Live>, iv: Interval): Chart
    requires iv.Valid() && forall e | e in events :: e.Valid()
    decreases |events|
  {
    if events == [] then chart
    else Drew(DrewAll(chart, events[..|events| - 1], iv), events[|events| - 1], iv)
  }

  predicate ByBucket(a: Point, b: Point) { a.bucket < b.bucket }

  ghost predicate Keyed(chart: Chart) {
    forall b | b in chart :: chart[b].bucket == b
  }

  /** The ascending list of a chart's points. */
  ghost predicate Lists(points: seq<Point>, chart: Chart) {
    Sorting.Ascending(points, ByBucket) && forall p :: p in points <==> p.bucket in chart && chart[p.bucket] == p
  }

  function ChartOf(points: seq<Point>): Chart
    decreases |points|
  {
    if points == [] then map[]
    else ChartOf(points[..|points| - 1])[points[|points| - 1].bucket := points[|points| - 1]]
  }

  lemma {:induction false} ChartOfKeyed(points: seq<Point>)
    ensures Keyed(ChartOf(points))
    ensures forall b | b in ChartOf(points) :: ChartOf(points)[b] in points
    decreases |points|
  {
    if points != [] {
      ChartOfKeyed(points[..|points| - 1]);
      assert points == points[..|points| - 1] + [points[|points| - 1]];
    }
  }

  lemma {:induction false} ChartOfAt(points: seq<Point>, p: Point)
    requires Sorting.Ascending(points, ByBucket) && p in points
    ensures p.bucket in ChartOf(points) && ChartOf(points)[p.bucket] == p
    decreases |points|
  {
    var init, last := points[..|points| - 1], points[|points| - 1];
    assert points == init + [last];
    if p != last {
      var i :| 0 <= i < |points| && points[i] == p;
      assert ByBucket(points[i], points[|points| - 1]);
      assert init[i] == p;
      ChartOfAt(init, p);
    }
  }

  /** Reading a listed chart back gives the chart. */
  lemma {:induction false} ListedRoundTrip(points: seq<Point>, chart: Chart)
    requires Lists(points, chart) && Keyed(chart)
    ensures ChartOf(points) == chart
  {
    ChartOfKeyed(points);
    var back := ChartOf(points);
    forall b ensures b in back <==> b in chart {
      if b in back { assert back[b] in points && back[b].bucket == b; }
      if b in chart { assert chart[b].bucket == b && chart[b] in points; ChartOfAt(points, chart[b]); }
    }
    forall b | b in back ensures back[b] == chart[b] { assert back[b] in points && back[b].bucket == b; }
  }

  lemma {:induction false} DrewKeyed(chart: Chart, events: seq<Live>, iv: Interval)
    requires iv.Valid() && Keyed(chart) && forall e | e in events :: e.Valid()
    ensures Keyed(DrewAll(chart, events, iv))
    decreases |events|
  {
    if events != [] { DrewKeyed(chart, events[..|events| - 1], iv); }
  }

  /** [...buckets.values()].sort by bucket start. */
  method ListChart(chart: Chart) returns (points: seq<Point>)
    requires Keyed(chart)
    ensures Lists(points, chart)
  {
    points := [];
    var rest: set<int> := chart.Keys;
    while rest != {}
      invariant rest <= chart.Keys && Sorting.Distinct(points)
      invariant forall p :: p in points <==> p.bucket in chart.Keys - rest && chart[p.bucket] == p
      decreases |rest|
    {
      var b := Sorting.AnyOf(rest);
      Sorting.Members(points, chart[b]);
      points := points + [chart[b]];
      rest := rest - {b};
    }
    assert Sorting.Compares(points, ByBucket);
    Sorting.Sorts(points, ByBucket);
    points := Sorting.Sort(points, ByBucket);
  }

  /** overlayCandles. */
  method OverlayCandles(canonical: seq<Point>, events: seq<Live>, iv: Interval) returns (points: seq<Point>)
    requires iv.Valid() && OneEach(events) && forall e | e in events :: e.Valid()
    ensures forall e | e in Sorted(events) :: e.Valid()
    ensures Lists(points, DrewAll(ChartOf(canonical), Sorted(events), iv))
  {
    var buckets := ChartOf(canonical);
    var sorted := Sorted(events);
    SortedValid(events);
    for i := 0 to |sorted|
      invariant buckets == DrewAll(ChartOf(canonical), sorted[..i], iv)
    {
      var e := sorted[i];
      assert e in sorted;
      assert sorted[..i + 1][..i] == sorted[..i];
      if e.time.Some? {
        var price := LivePrice(e);
        if price.Some? {
          var bucket := OverlayBucket(iv, e.time.value);
          if bucket !in buckets {
            buckets := buckets[bucket := Opened(e, bucket, price.value)];
          } else {
            buckets := buckets[bucket := Extended(buckets[bucket], e, price.value)];
          }
        }
      }
    }
    assert sorted[..|sorted|] == sorted;
    ChartOfKeyed(canonical);
    DrewKeyed(ChartOf(canonical), sorted, iv);
    points := ListChart(buckets);
  }

  lemma {:induction false} SortedValid(events: seq<Live>)
    requires forall e | e in events :: e.Valid()
    ensures forall e | e in Sorted(events) :: e.Valid()
  {
    Sorting.SortPermutes(events, Earlier);
    forall e | e in Sorted(events) ensures e.Valid() { assert e in multiset(Sorted(events)); }
  }

  // ---------------------------------------------------------------- what the drawn chart keeps

  lemma {:induction false} DrewAllJoin(chart: Chart, a: seq<Live>, b: seq<Live>, iv: Interval)
    requires iv.Valid() && (forall e | e in a :: e.Valid()) && forall e | e in b :: e.Valid()
    ensures DrewAll(DrewAll(chart, a, iv), b, iv) == DrewAll(chart, a + b, iv)
    decreases |b|
  {
    if b == [] {
      assert a + b == a;
    } else {
      var init := b[..|b| - 1];
      assert (a + b)[..|a + b| - 1] == a + init;
      DrewAllJoin(chart, a, init, iv);
    }
  }

  lemma {:induction false} SortedJoin(a: seq<Live>, b: seq<Live>)
    requires OneEach(a + b) && forall x, y | x in a && y in b :: Earlier(x, y)
    ensures Sorted(a + b) == Sorted(a) + Sorted(b) && OneEach(a) && OneEach(b)
  {
    var ab := a + b;
    forall i, j | 0 <= i < j < |a| ensures a[i].Identity() != a[j].Identity() { assert ab[i] == a[i] && ab[j] == a[j]; }
    forall i, j | 0 <= i < j < |b| ensures b[i].Identity() != b[j].Identity() {
      assert ab[|a| + i] == b[i] && ab[|a| + j] == b[j];
    }
    SortedAscending(a);
    SortedAscending(b);
    var s, t := Sorted(a), Sorted(b);
    forall x | x in s ensures x in a { assert x in multiset(s); }
    forall y | y in t ensures y in b { assert y in multiset(t); }
    forall i, j | 0 <= i < j < |s + t| ensures Earlier((s + t)[i], (s + t)[j]) {
      if i < |s| <= j { assert s[i] in s && t[j - |s|] in t; }
    }
    SortedIs(a + b, s + t);
  }

  /** Overlaying in two chain-ordered parts is overlaying once. */
  lemma {:induction false} OverlayInParts(canonical: seq<Point>, first: seq<Point>, second: seq<Point>, a: seq<Live>,
                                          b: seq<Live>, iv: Interval)
    requires iv.Valid() && OneEach(a + b) && (forall e | e in a :: e.Valid()) && forall e | e in b :: e.Valid()
    requires forall x, y | x in a && y in b :: Earlier(x, y)
    requires (forall e | e in Sorted(a) :: e.Valid()) && Lists(first, DrewAll(ChartOf(canonical), Sorted(a), iv))
    requires (forall e | e in Sorted(b) :: e.Valid()) && Lists(second, DrewAll(ChartOf(first), Sorted(b), iv))
    ensures (forall e | e in Sorted(a + b) :: e.Valid())
      && Lists(second, DrewAll(ChartOf(canonical), Sorted(a + b), iv))
  {
    ChartOfKeyed(canonical);
    DrewKeyed(ChartOf(canonical), Sorted(a), iv);
    ListedRoundTrip(first, DrewAll(ChartOf(canonical), Sorted(a), iv));
    SortedJoin(a, b);
    DrewAllJoin(ChartOf(canonical), Sorted(a), Sorted(b), iv);
  }

  /** Arrival order does not matter. */
  lemma {:induction false} ArrivalOrderFree(a: seq<Live>, b: seq<Live>)
    requires OneEach(a) && OneEach(b) && multiset(a) == multiset(b)
    ensures Sorted(a) == Sorted(b)
  {
    SortedAscending(b);
    SortedIs(a, Sorted(b));
  }

  /** Null prices together or sane ones. */
  predicate Sane(p: Point) {
    if p.open.None? then p.high.None? && p.low.None? && p.close.None?
    else (p.high.Some? && p.low.Some? && p.close.Some?
          && p.low.value <= p.open.value <= p.high.value && p.low.value <= p.close.value <= p.high.value)
  }

  /** Bounds survive every overlay. */
  lemma {:induction false} OverlaySane(chart: Chart, events: seq<Live>, iv: Interval)
    requires iv.Valid() && (forall e | e in events :: e.Valid()) && forall b | b in chart :: Sane(chart[b])
    ensures forall b | b in DrewAll(chart, events, iv) :: Sane(DrewAll(chart, events, iv)[b])
    decreases |events|
  {
    if events != [] { OverlaySane(chart, events[..|events| - 1], iv); }
  }

  function DrawnCount(events: seq<Live>): nat
    requires forall e | e in events :: e.Valid()
    decreases |events|
  {
    if events == [] then 0
    else DrawnCount(events[..|events| - 1]) + (if Drawn(events[|events| - 1]) then 1 else 0)
  }

  function DrawnVolume(events: seq<Live>): nat
    requires forall e | e in events :: e.Valid()
    decreases |events|
  {
    if events == [] then 0
    else
      DrawnVolume(events[..|events| - 1])
      + (if Drawn(events[|events| - 1]) then LiveVolume(events[|events| - 1]) else 0)
  }

  type Column = Point -> int

  ghost function ColumnOf(chart: Chart, f: Column): map<int, int> {
    map b | b in chart :: f(chart[b])
  }

  lemma {:induction false} ColumnPut(chart: Chart, b: int, p: Point, f: Column)
    ensures Total(ColumnOf(chart[b := p], f))
      == Total(ColumnOf(chart, f)) + f(p) - (if b in chart then f(chart[b]) else 0)
  {
    var c, d := ColumnOf(chart, f), ColumnOf(chart[b := p], f);
    var x := f(p) - (if b in chart then f(chart[b]) else 0);
    assert d == c[b := Get(c, b) + x];
    TotalAdd(c, b, x, d);
  }

  /** Trade counts and volume are conserved over the whole chart. */
  lemma {:induction false} OverlayConserves(chart: Chart, events: seq<Live>, iv: Interval)
    requires iv.Valid() && forall e | e in events :: e.Valid()
    ensures Total(ColumnOf(DrewAll(chart, events, iv), (p: Point) => p.trades))
         == Total(ColumnOf(chart, (p: Point) => p.trades)) + DrawnCount(events)
    ensures Total(ColumnOf(DrewAll(chart, events, iv), (p: Point) => p.volume))
         == Total(ColumnOf(chart, (p: Point) => p.volume)) + DrawnVolume(events)
    decreases |events|
  {
    if events != [] {
      var init, last := events[..|events| - 1], events[|events| - 1];
      OverlayConserves(chart, init, iv);
      if Drawn(last) {
        var before := DrewAll(chart, init, iv);
        var bucket, price := OverlayBucket(iv, last.time.value), LivePrice(last).value;
        var p := if bucket in before then Extended(before[bucket], last, price) else Opened(last, bucket, price);
        ColumnPut(before, bucket, p, (p: Point) => p.trades);
        ColumnPut(before, bucket, p, (p: Point) => p.volume);
      }
    }
  }
}
