/** Where the page's hand-off meets the store: a token's stored history splits at the indexed block into
    what the snapshot was made from and what the live feed shows above it. */
module LiveTail {
  import opened Wrappers
  import opened Chain
  import opened Numeric
  import opened Analytics
  import opened Overlay
  import opened HandOff
  import opened Tables
  import opened Views
  import opened Reorg
  import Order
  import Swaps

  // ---------------------------------------------------------------- which log a trade row is

  /** The row is this log's. */
  ghost predicate TradeOf(b: Block, l: Log, k: LogKey, t: Trade) {
    l in b.logs && l.Key() == k && l.block == b.header.number && l.txIndex == t.txIndex
    && (t.source.PoolSource? ==> l.payload.Swap? && SwapTrade(t.token, l, b.context) == Ok(t))
  }

  ghost predicate InBlock(b: Block, k: LogKey, f: Fact<Trade>) {
    f.block == b.header.number && f.hash == b.header.hash && exists l :: TradeOf(b, l, k, f.data)
  }

  ghost predicate InChain(chain: seq<Block>, k: LogKey, f: Fact<Trade>) {
    exists i | 0 <= i < |chain| :: InBlock(chain[i], k, f)
  }

  ghost predicate AllInChain(trades: Facts<LogKey, Trade>, chain: seq<Block>) {
    forall k | k in trades :: InChain(chain, k, trades[k])
  }

  lemma {:induction false} EffectIsItsLog(l: Log, trusted: bool, owner: Option<Address>, b: Block, cfg: Config)
    requires l in b.logs && l.block == b.header.number && Effects(l, trusted, owner, b.context, cfg).Ok?
    ensures var w := Effects(l, trusted, owner, b.context, cfg).value;
      w.trade.Some? ==> TradeOf(b, l, l.Key(), w.trade.value)
  {
  }

  lemma {:induction false} LogsInChain(v: View, chain: seq<Block>, b: Block, n: nat, cfg: Config)
    requires n <= |b.logs| && AllInChain(v.trades, chain + [b]) && RecordLogs(v, b, n, cfg).Ok?
    ensures AllInChain(RecordLogs(v, b, n, cfg).value.trades, chain + [b])
  {
    if n > 0 {
      LogsInChain(v, chain, b, n - 1, cfg);
      var u, l := RecordLogs(v, b, n - 1, cfg).value, b.logs[n - 1];
      EffectIsItsLog(l, TrustedLog(u, l, cfg.roots), PoolOwner(u.curves, u.tokens, l.address), b, cfg);
      PutInChain(u.trades, chain, b, l, EffectsIn(u, l, b.context, cfg).value.trade);
    }
  }

  lemma {:induction false} PutInChain(trades: Facts<LogKey, Trade>, chain: seq<Block>, b: Block, l: Log,
                                      t: Option<Trade>)
    requires AllInChain(trades, chain + [b])
    requires l.block == b.header.number && l.blockHash == b.header.hash
    requires t.Some? ==> TradeOf(b, l, l.Key(), t.value)
    ensures AllInChain(Put(trades, l, t), chain + [b])
  {
    assert (chain + [b])[|chain|] == b;
    if t.Some? { assert InBlock(b, l.Key(), Fact(l.block, l.blockHash, t.value)); }
  }

  lemma {:induction false} TradesInChain(chain: seq<Block>, cfg: Config)
    requires ViewOf(chain, cfg).Ok?
    ensures AllInChain(ViewOf(chain, cfg).value.trades, chain)
    decreases |chain|
  {
    if chain != [] {
      var init, b := chain[..|chain| - 1], chain[|chain| - 1];
      TradesInChain(init, cfg);
      var v := ViewOf(init, cfg).value;
      assert chain == init + [b];
      forall k | k in v.trades ensures InChain(chain, k, v.trades[k]) {
        var i :| 0 <= i < |init| && InBlock(init[i], k, v.trades[k]);
        assert chain[i] == init[i];
      }
      LogsInChain(Started(v, b.header), init, b, |b.logs|, cfg);
    }
  }

  // ---------------------------------------------------------------- chain order and the page's order

  /** Block times never run backwards, and log indexes count through the transactions of a block. */
  ghost predicate Clocked(chain: seq<Block>) {
    (forall i, j | 0 <= i < j < |chain| :: chain[i].header.time <= chain[j].header.time)
    && forall i | 0 <= i < |chain| :: LogsRise(chain[i])
  }

  ghost predicate LogsRise(b: Block) {
    forall l, m | l in b.logs && m in b.logs && l.txIndex < m.txIndex :: l.index < m.index
  }

  /** This placed trade stands in block i of the chain. */
  ghost predicate Stands(chain: seq<Block>, i: nat, p: Placed) {
    i < |chain| && p.pos.block == chain[i].header.number && p.time == chain[i].header.time
    && p.pos.txIndex == p.trade.txIndex && exists l :: TradeOf(chain[i], l, LogKey(p.pos.tx, p.pos.index), p.trade)
  }

  lemma {:induction false} TimeOfBlock(v: View, chain: seq<Block>, i: nat)
    requires AnchoredView(v, chain) && Legal(chain) && i < |chain| && chain[i].header.hash in v.blocks
    ensures v.blocks[chain[i].header.hash] == BlockFact(chain[i].header)
  {
    var h := chain[i].header.hash;
    var j :| 0 <= j < |chain| && BlockFact(chain[j].header) == v.blocks[h];
    assert chain[j].header.hash == h;
  }

  ghost predicate Rising(h: seq<Placed>) {
    forall i, j | 0 <= i < j < |h| :: Order.Less(h[i].pos, h[j].pos)
  }

  /** One trade of a stored history. */
  ghost predicate StoredTrade(v: View, token: Address, p: Placed) {
    var k := LogKey(p.pos.tx, p.pos.index);
    TradeListed(v, token, p.pos) && p.trade == v.trades[k].data && p.time == v.blocks[v.trades[k].hash].data.time
    && p.pos.block == v.trades[k].block && p.pos.txIndex == p.trade.txIndex
  }

  lemma {:induction false} HistoryStored(v: View, token: Address)
    ensures Rising(History(v, token))
    ensures forall p :: p in History(v, token) <==> StoredTrade(v, token, p)
  {
    var h := History(v, token);
    var ps := Order.Sort(set k | k in v.trades && v.trades[k].data.token == token && v.trades[k].hash in v.blocks ::
                           Order.Pos(v.trades[k].block, v.trades[k].data.txIndex, k.index, k.tx));
    forall p | StoredTrade(v, token, p) ensures p in h {
      assert LogKey(p.pos.tx, p.pos.index) in v.trades;
      assert p.pos in ps;
      var i :| 0 <= i < |ps| && ps[i] == p.pos;
      assert h[i] == p;
    }
    forall p | p in h ensures StoredTrade(v, token, p) {
      var i :| 0 <= i < |h| && h[i] == p;
      assert ps[i] in ps && TradeListed(v, token, ps[i]);
    }
  }

  lemma {:induction false} StoredStands(chain: seq<Block>, cfg: Config, token: Address, p: Placed)
    requires Legal(chain) && ViewOf(chain, cfg).Ok? && StoredTrade(ViewOf(chain, cfg).value, token, p)
    ensures exists i :: Stands(chain, i, p)
  {
    var v, k := ViewOf(chain, cfg).value, LogKey(p.pos.tx, p.pos.index);
    ChainAnchored(chain, cfg);
    TradesInChain(chain, cfg);
    var i :| 0 <= i < |chain| && InBlock(chain[i], k, v.trades[k]);
    TimeOfBlock(v, chain, i);
    assert Stands(chain, i, p);
  }

  lemma {:induction false} StandsEarlier(chain: seq<Block>, i: nat, j: nat, p: Placed, q: Placed)
    requires Legal(chain) && Clocked(chain) && Stands(chain, i, p) && Stands(chain, j, q) && Order.Less(p.pos, q.pos)
    ensures Earlier(LiveOf(p), LiveOf(q))
  {
    if i == j {
      var l :| TradeOf(chain[i], l, LogKey(p.pos.tx, p.pos.index), p.trade);
      var m :| TradeOf(chain[j], m, LogKey(q.pos.tx, q.pos.index), q.trade);
      assert LogsRise(chain[i]);
    } else {
      assert i < j;
      assert chain[i].header.number < chain[j].header.number && chain[i].header.time <= chain[j].header.time;
    }
  }

  /** The stored order of a history is the page's order. */
  lemma {:induction false} HistoryOnChain(chain: seq<Block>, cfg: Config, token: Address)
    requires Legal(chain) && Clocked(chain) && ViewOf(chain, cfg).Ok?
    ensures OnChain(History(ViewOf(chain, cfg).value, token))
  {
    var v := ViewOf(chain, cfg).value;
    var h := History(v, token);
    HistoryStored(v, token);
    forall a, b | 0 <= a < b < |h|
      ensures Earlier(LiveOf(h[a]), LiveOf(h[b])) && LiveOf(h[a]).Identity() != LiveOf(h[b]).Identity()
    {
      assert StoredTrade(v, token, h[a]) && StoredTrade(v, token, h[b]) by { assert h[a] in h && h[b] in h; }
      StoredStands(chain, cfg, token, h[a]);
      StoredStands(chain, cfg, token, h[b]);
      var i :| Stands(chain, i, h[a]);
      var j :| Stands(chain, j, h[b]);
      StandsEarlier(chain, i, j, h[a], h[b]);
    }
  }

  // ---------------------------------------------------------------- where a history splits

  lemma {:induction false} OnePlace(h: seq<Placed>, i: nat, j: nat)
    requires Rising(h) && i < |h| && j < |h| && h[i].pos == h[j].pos
    ensures i == j
  {
  }

  lemma {:induction false} RisingUnique(a: seq<Placed>, b: seq<Placed>)
    requires Rising(a) && Rising(b) && forall p :: p in a <==> p in b
    ensures a == b
  {
    var pa, pb := seq(|a|, i requires 0 <= i < |a| => a[i].pos), seq(|b|, i requires 0 <= i < |b| => b[i].pos);
    forall p ensures p in pa <==> p in pb {
      if p in pa {
        var i :| 0 <= i < |a| && a[i].pos == p;
        assert a[i] in b;
        var j :| 0 <= j < |b| && b[j] == a[i];
        assert pb[j] == p;
      }
      if p in pb {
        var i :| 0 <= i < |b| && b[i].pos == p;
        assert b[i] in a;
        var j :| 0 <= j < |a| && a[j] == b[i];
        assert pa[j] == p;
      }
    }
    Order.AscendingUnique(pa, pb);
    forall i | 0 <= i < |a| ensures a[i] == b[i] {
      assert a[i] in b && pa[i] == pb[i];
      var j :| 0 <= j < |b| && b[j] == a[i];
      OnePlace(b, i, j);
    }
  }

  /** How much of a history lies at or below a block. */
  function Through(h: seq<Placed>, w: nat): (n: nat)
    ensures n <= |h|
    decreases |h|
  {
    if h == [] then 0
    else if h[|h| - 1].pos.block <= w then |h|
    else Through(h[..|h| - 1], w)
  }

  lemma {:induction false} ThroughSplits(h: seq<Placed>, w: nat)
    requires Rising(h)
    ensures forall i | 0 <= i < |h| :: h[i].pos.block <= w <==> i < Through(h, w)
    decreases |h|
  {
    if h != [] && h[|h| - 1].pos.block > w {
      ThroughSplits(h[..|h| - 1], w);
    }
  }

  lemma {:induction false} StoredBelow(chain: seq<Block>, v: View, token: Address, w: nat, p: Placed)
    requires Legal(chain) && AnchoredView(v, chain)
    ensures StoredTrade(BelowView(v, w + 1), token, p) <==> StoredTrade(v, token, p) && p.pos.block <= w
  {
    var k := LogKey(p.pos.tx, p.pos.index);
    if k in v.trades && v.trades[k].hash in v.blocks {
      assert From(chain, k, v.trades[k].block, v.trades[k].hash);
      var i :| 0 <= i < |chain| && chain[i].header.number == v.trades[k].block
        && chain[i].header.hash == v.trades[k].hash;
      TimeOfBlock(v, chain, i);
    }
  }

  lemma {:induction false} PrefixThrough(h: seq<Placed>, kept: seq<Placed>, w: nat)
    requires Rising(h) && Rising(kept) && forall p :: p in kept <==> p in h && p.pos.block <= w
    ensures kept == h[..Through(h, w)]
  {
    var n := Through(h, w);
    ThroughSplits(h, w);
    forall p ensures p in kept <==> p in h[..n] {
      if p in h && p.pos.block <= w {
        var i :| 0 <= i < |h| && h[i] == p;
        assert h[..n][i] == p;
      }
    }
    RisingUnique(kept, h[..n]);
  }

  lemma {:induction false} BelowSplits(chain: seq<Block>, v: View, token: Address, w: nat)
    requires Legal(chain) && AnchoredView(v, chain)
    ensures History(BelowView(v, w + 1), token) == History(v, token)[..Through(History(v, token), w)]
  {
    HistoryStored(v, token);
    HistoryStored(BelowView(v, w + 1), token);
    forall p ensures p in History(BelowView(v, w + 1), token) <==> p in History(v, token) && p.pos.block <= w {
      StoredBelow(chain, v, token, w, p);
    }
    PrefixThrough(History(v, token), History(BelowView(v, w + 1), token), w);
  }

  /** A token's trades as the index of a chain orders them. */
  function Traded(chain: seq<Block>, cfg: Config, token: Address): seq<Placed>
    requires ViewOf(chain, cfg).Ok?
  {
    History(ViewOf(chain, cfg).value, token)
  }

  /** The history of the blocks up to w is the part of the whole history up to w. */
  lemma {:induction false} HistorySplits(chain: seq<Block>, cfg: Config, token: Address, w: nat)
    requires Legal(chain) && ViewOf(chain, cfg).Ok?
    ensures ViewOf(chain[..Cut(chain, w + 1)], cfg).Ok?
    ensures var h := Traded(chain, cfg, token);
      Traded(chain[..Cut(chain, w + 1)], cfg, token) == h[..Through(h, w)]
      && forall i | 0 <= i < |h| :: h[i].pos.block <= w <==> i < Through(h, w)
  {
    ViewBelow(chain, cfg, w + 1);
    ChainAnchored(chain, cfg);
    BelowSplits(chain, ViewOf(chain, cfg).value, token, w);
    HistoryStored(ViewOf(chain, cfg).value, token);
    ThroughSplits(Traded(chain, cfg, token), w);
  }

  // ---------------------------------------------------------------- hand-off at a block

  /** The trades the live feed shows above the indexed block. */
  function Tail(chain: seq<Block>, cfg: Config, token: Address, w: nat): seq<Placed>
    requires ViewOf(chain, cfg).Ok?
  {
    Traded(chain, cfg, token)[Through(Traded(chain, cfg, token), w)..]
  }

  /** A stored pool trade has tokens, and its live event is the decoded log it was made from. */
  lemma {:induction false} PoolTradeIsLive(chain: seq<Block>, i: nat, p: Placed, token: seq<Swaps.Byte>,
                                           usdc: seq<Swaps.Byte>)
    requires Stands(chain, i, p) && p.trade.source.PoolSource? && p.trade.token == Swaps.Value(token)
    requires |token| == |usdc| && Swaps.Value(usdc) == Swaps.USDC
    ensures exists l | l in chain[i].logs :: l.payload.Swap? && DecodeSwap(l, token, usdc, p.time) == Some(LiveOf(p))
  {
    var l :| TradeOf(chain[i], l, LogKey(p.pos.tx, p.pos.index), p.trade);
    SwapReadersAgree(l, token, usdc, p.time, chain[i].context);
    assert Placed(Order.Pos(l.block, l.txIndex, l.index, l.tx), p.time, p.trade) == p;
  }

  lemma {:induction false} SwapHasTokens(token: Address, l: Log, ctx: Context)
    requires l.payload.Swap? && SwapTrade(token, l, ctx).Ok?
    ensures SwapTrade(token, l, ctx).value.tokens > 0
  {
    Swaps.ReadingMeansExchange(token, l.payload.amount0, l.payload.amount1);
  }

  lemma {:induction false} StoredHasTokens(chain: seq<Block>, cfg: Config, token: Address, p: Placed)
    requires Legal(chain) && ViewOf(chain, cfg).Ok? && p in Traded(chain, cfg, token) && p.trade.source.PoolSource?
    ensures p.trade.tokens > 0
  {
    HistoryStored(ViewOf(chain, cfg).value, token);
    StoredStands(chain, cfg, token, p);
    var i: nat :| Stands(chain, i, p);
    var l :| TradeOf(chain[i], l, LogKey(p.pos.tx, p.pos.index), p.trade);
    SwapHasTokens(p.trade.token, l, chain[i].context);
  }

  lemma {:induction false} TailPooled(chain: seq<Block>, cfg: Config, token: Address, w: nat)
    requires Legal(chain) && ViewOf(chain, cfg).Ok?
    requires forall p | p in Tail(chain, cfg, token, w) :: p.trade.source.PoolSource?
    ensures Pooled(Tail(chain, cfg, token, w))
  {
    forall p | p in Tail(chain, cfg, token, w) ensures p.trade.tokens > 0 {
      assert p in Traded(chain, cfg, token);
      StoredHasTokens(chain, cfg, token, p);
    }
  }

  /** Metrics and candles of the trades of the snapshot, overlaid, against those of all trades. */
  ghost predicate TailHandsOff(before: seq<Placed>, ts: seq<Placed>, all: seq<Placed>, events: seq<Live>, supply: nat,
                               iv: Interval, cfg: Config)
    requires iv.Valid() && Pooled(ts) && Sorted(events) == LivesOf(ts)
  {
    (ts != [] ==> ts[|ts| - 1] in ts)
    && HandsOff(MetricsOf(all, supply, cfg.virtualReserve, cfg.digits),
                OverlayMetrics(MetricsOf(before, supply, cfg.virtualReserve, cfg.digits), supply, events),
                LastOf(ts), supply, cfg.digits)
    && HandsOffAll(DrewAll(PointsOf(Candles(before, Bucketing(iv), cfg.virtualReserve, cfg.digits)), Sorted(events),
      iv),
                   Candles(all, Bucketing(iv), cfg.virtualReserve, cfg.digits),
                   before, ts, Bucketing(iv), cfg.virtualReserve, cfg.digits)
  }

  lemma {:induction false} SplitHandOff(before: seq<Placed>, ts: seq<Placed>, all: seq<Placed>, events: seq<Live>,
                                        supply: nat, iv: Interval, cfg: Config)
    requires all == before + ts && Pooled(ts) && OnChain(all) && iv.Valid() && OneEach(events)
    requires multiset(events) == multiset(LivesOf(ts))
    ensures Sorted(events) == LivesOf(ts) && TailHandsOff(before, ts, all, events, supply, iv, cfg)
  {
    forall i, j | 0 <= i < j < |ts|
      ensures Earlier(LiveOf(ts[i]), LiveOf(ts[j])) && LiveOf(ts[i]).Identity() != LiveOf(ts[j]).Identity()
    {
      assert all[|before| + i] == ts[i] && all[|before| + j] == ts[j];
    }
    MetricsHandOff(before, ts, events, supply, cfg.virtualReserve, cfg.digits);
    CandleHandOff(before, ts, events, iv, cfg.virtualReserve, cfg.digits);
  }

  /** Hand-off at any block of any chain: the snapshot of the blocks up to w, overlaid with the live
      pool trades above it, against the index of the whole chain. */
  lemma {:induction false} StoredHandOff(chain: seq<Block>, cfg: Config, token: Address, w: nat, events: seq<Live>,
                                         supply: nat, iv: Interval)
    requires Legal(chain) && Clocked(chain) && ViewOf(chain, cfg).Ok? && iv.Valid() && OneEach(events)
    requires forall p | p in Tail(chain, cfg, token, w) :: p.trade.source.PoolSource?
    requires multiset(events) == multiset(LivesOf(Tail(chain, cfg, token, w)))
    ensures ViewOf(chain[..Cut(chain, w + 1)], cfg).Ok? && Pooled(Tail(chain, cfg, token, w))
    ensures Sorted(events) == LivesOf(Tail(chain, cfg, token, w))
    ensures TailHandsOff(Traded(chain[..Cut(chain, w + 1)], cfg, token), Tail(chain, cfg, token, w),
      Traded(chain, cfg, token),
                         events, supply, iv, cfg)
  {
    HistorySplits(chain, cfg, token, w);
    TailPooled(chain, cfg, token, w);
    HistoryOnChain(chain, cfg, token);
    Joined(Traded(chain, cfg, token), Through(Traded(chain, cfg, token), w));
    SplitHandOff(Traded(chain[..Cut(chain, w + 1)], cfg, token), Tail(chain, cfg, token, w), Traded(chain, cfg, token),
                 events, supply, iv, cfg);
  }

  lemma {:induction false} Joined(h: seq<Placed>, n: nat)
    requires n <= |h|
    ensures h == h[..n] + h[n..]
  {
  }
}
