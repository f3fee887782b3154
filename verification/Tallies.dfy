/** What the derived columns of a token and its holders' balances are: sums over the logs of the chain. */
module Tallies {
  import opened Wrappers
  import opened Chain
  import opened Analytics
  import opened Numeric
  import opened Sums
  import opened Tables
  import opened Views
  import opened Ledger
  import Balances
  import LiveTail
  import Order
  import Reorg
  import Runs
  import Store
  import Swaps

  datatype Column = SoldSupply | CurveReserve | Volume | Fees | Trades | Buys | Sells

  /** Which block times count. */
  type When = nat -> bool

  const ALWAYS: When := _ => true

  ghost function In(bucket: Buckets, b: int): When {
    (time: nat) => bucket(time) == b
  }

  // ---------------------------------------------------------------- over the logs

  ghost function Bit(b: bool): int {
    if b then 1 else 0
  }

  /** What one log adds to a column of a token: curve amounts have 18 decimals, a pool's USDC has 6. */
  ghost function Adds(c: Column, before: seq<Entry>, l: Log, token: Address, cfg: Config): int {
    match l.payload
    case Bought(t, _, _, _, _, _, _) => if t == token then BuyAdds(c, l) else 0
    case Sold(t, _, _, _, _, _, _) => if t == token then SellAdds(c, l) else 0
    case Swap(_, _) => if PoolOf(before, l.address, token, cfg) then SwapAdds(c, l, token) else 0
    case _ => 0
  }

  ghost function BuyAdds(c: Column, l: Log): int
    requires l.payload.Bought?
  {
    match c
    case SoldSupply => l.payload.tokensOut
    case CurveReserve | Volume => l.payload.netCurveInput
    case Fees => l.payload.protocolFee + l.payload.creatorFee
    case Trades | Buys => 1
    case Sells => 0
  }

  ghost function SellAdds(c: Column, l: Log): int
    requires l.payload.Sold?
  {
    match c
    case SoldSupply => -(l.payload.tokensIn as int)
    case CurveReserve => -(l.payload.grossCurveOutput as int)
    case Volume => l.payload.grossCurveOutput
    case Fees => l.payload.protocolFee + l.payload.creatorFee
    case Trades | Sells => 1
    case Buys => 0
  }

  ghost function SwapAdds(c: Column, l: Log, token: Address): int
    requires l.payload.Swap?
  {
    var usdc := if token < Swaps.USDC then l.payload.amount1 else l.payload.amount0;
    match c
    case SoldSupply | CurveReserve | Fees => 0
    case Volume => (if usdc < 0 then -usdc else usdc) * 1_000_000_000_000
    case Trades => 1
    case Buys => Bit(usdc > 0)
    case Sells => Bit(usdc < 0)
  }

  ghost function Tally(c: Column, es: seq<Entry>, token: Address, when: When, cfg: Config): int
    decreases |es|
  {
    if es == [] then 0
    else
      var n := |es| - 1;
      Tally(c, es[..n], token, when, cfg) + if when(es[n].time) then Adds(c, es[..n], es[n].log, token, cfg) else 0
  }

  // ---------------------------------------------------------------- over the rows

  /** What a trade row counts for. */
  ghost function Measured(c: Column, t: Trade): int {
    match c
    case SoldSupply => if t.source.CurveSource? then Signed(t, t.tokens) else 0
    case CurveReserve => if t.source.CurveSource? then Signed(t, t.value) else 0
    case Volume => VolumeOf(t)
    case Fees => FeesOf(t)
    case Trades => One(t)
    case Buys => IsBuy(t)
    case Sells => IsSell(t)
  }

  ghost function HistoryTally(c: Column, ts: seq<Placed>, when: When): int
    decreases |ts|
  {
    if ts == [] then 0
    else
      var last := ts[|ts| - 1];
      HistoryTally(c, ts[..|ts| - 1], when) + if when(last.time) then Measured(c, last.trade) else 0
  }

  lemma {:induction false} AggregateTally(ts: seq<Placed>)
    ensures Aggregate(ts) == CurveState(HistoryTally(SoldSupply, ts, ALWAYS), HistoryTally(CurveReserve, ts, ALWAYS))
    decreases |ts|
  {
    if ts != [] { AggregateTally(ts[..|ts| - 1]); }
  }

  ghost predicate SumsAre(ts: seq<Placed>, all: seq<Placed>, when: When) {
    HistoryTally(Volume, all, when) == Sum(VolumeOf, ts) && HistoryTally(Fees, all, when) == Sum(FeesOf, ts)
    && HistoryTally(Trades, all, when) == Sum(One, ts) && HistoryTally(Buys, all, when) == Sum(IsBuy, ts)
    && HistoryTally(Sells, all, when) == Sum(IsSell, ts)
  }

  lemma {:induction false} MetricsTally(ts: seq<Placed>)
    ensures SumsAre(ts, ts, ALWAYS)
    decreases |ts|
  {
    if ts != [] { MetricsTally(ts[..|ts| - 1]); }
  }

  lemma {:induction false} BucketTally(ts: seq<Placed>, bucket: Buckets, b: int)
    ensures SumsAre(Members(ts, bucket, b), ts, In(bucket, b))
    decreases |ts|
  {
    if ts != [] {
      var init, last := ts[..|ts| - 1], ts[|ts| - 1];
      BucketTally(init, bucket, b);
      if bucket(last.time) == b {
        var m := Members(init, bucket, b);
        MembersSum(m, last, VolumeOf);
        MembersSum(m, last, FeesOf);
        MembersSum(m, last, One);
        MembersSum(m, last, IsBuy);
        MembersSum(m, last, IsSell);
      }
    }
  }

  /** What the trade row of a key, if any, counts for. */
  ghost function Counted(v: View, c: Column, token: Address, when: When): LogKey -> int {
    (k: LogKey) =>
      if k in v.trades && v.trades[k].data.token == token && v.trades[k].hash in v.blocks
         && when(v.blocks[v.trades[k].hash].data.time) then Measured(c, v.trades[k].data) else 0
  }

  ghost function PlacedKeys(ts: seq<Placed>): seq<LogKey> {
    seq(|ts|, i requires 0 <= i < |ts| => LogKey(ts[i].pos.tx, ts[i].pos.index))
  }

  lemma {:induction false} HistoryCounts(v: View, c: Column, token: Address, when: When, ts: seq<Placed>)
    requires forall p | p in ts :: LiveTail.StoredTrade(v, token, p)
    ensures HistoryTally(c, ts, when) == SumOver(Counted(v, c, token, when), PlacedKeys(ts))
    decreases |ts|
  {
    if ts != [] {
      var init, last := ts[..|ts| - 1], ts[|ts| - 1];
      assert last in ts && forall p | p in init :: p in ts;
      HistoryCounts(v, c, token, when, init);
      assert PlacedKeys(ts)[..|ts| - 1] == PlacedKeys(init);
    }
  }

  /** The keys of a stored history are the keys of the token's trades, each once. */
  lemma {:induction false} HistoryKeys(v: View, token: Address)
    ensures var ks := PlacedKeys(History(v, token));
      Distinct(ks)
      && forall k :: k in ks <==> k in v.trades && v.trades[k].data.token == token && v.trades[k].hash in v.blocks
  {
    var h := History(v, token);
    var ks := PlacedKeys(h);
    LiveTail.HistoryStored(v, token);
    forall i, j | 0 <= i < j < |ks| ensures ks[i] != ks[j] {
      assert h[i] in h && h[j] in h;
      assert Order.Less(h[i].pos, h[j].pos);
    }
    forall k | k in v.trades && v.trades[k].data.token == token && v.trades[k].hash in v.blocks ensures k in ks {
      var f := v.trades[k];
      var p := Placed(Order.Pos(f.block, f.data.txIndex, k.index, k.tx), v.blocks[f.hash].data.time, f.data);
      assert LiveTail.StoredTrade(v, token, p);
      var i :| 0 <= i < |h| && h[i] == p;
      assert ks[i] == k;
    }
    forall k | k in ks ensures k in v.trades && v.trades[k].data.token == token && v.trades[k].hash in v.blocks {
      var i :| 0 <= i < |ks| && ks[i] == k;
      assert h[i] in h;
    }
  }

  // ---------------------------------------------------------------- both

  ghost function EntryKeys(es: seq<Entry>): seq<LogKey> {
    seq(|es|, i requires 0 <= i < |es| => es[i].log.Key())
  }

  /** The block of every entry is indexed with its time. */
  ghost predicate Timed(v: View, es: seq<Entry>) {
    forall n | 0 <= n < |es| ::
      es[n].log.blockHash in v.blocks && v.blocks[es[n].log.blockHash].data.time == es[n].time
  }

  /** The row of a log counts for what the log adds. */
  lemma {:induction false} RowCounts(v: View, before: seq<Entry>, e: Entry, c: Column, token: Address, cfg: Config)
    requires TradeRow(v, before, e, cfg) && token !in cfg.excluded
    ensures (if e.log.Key() in v.trades && v.trades[e.log.Key()].data.token == token
             then Measured(c, v.trades[e.log.Key()].data) else 0) == Adds(c, before, e.log, token, cfg)
  {
    if e.log.payload.Swap? { SwapCounts(v, before, e, c, token, cfg); }
  }

  lemma {:induction false} SwapCounts(v: View, before: seq<Entry>, e: Entry, c: Column, token: Address, cfg: Config)
    requires TradeRow(v, before, e, cfg) && e.log.payload.Swap?
    ensures (if e.log.Key() in v.trades && v.trades[e.log.Key()].data.token == token
             then Measured(c, v.trades[e.log.Key()].data) else 0) == Adds(c, before, e.log, token, cfg)
  {
    if PoolOf(before, e.log.address, token, cfg) {
      OneOwner(before, e.log.address, token, v.trades[e.log.Key()].data.token, cfg);
    }
  }

  lemma {:induction false} EntryCounts(v: View, es: seq<Entry>, n: nat, c: Column, token: Address, when: When,
                                       cfg: Config)
    requires n < |es| && Ledgered(v, es, cfg) && Timed(v, es) && token !in cfg.excluded
    ensures Counted(v, c, token, when)(es[n].log.Key())
         == if when(es[n].time) then Adds(c, es[..n], es[n].log, token, cfg) else 0
  {
    assert Rows(v, es[..n], es[n], cfg);
    RowCounts(v, es[..n], es[n], c, token, cfg);
  }

  lemma {:induction false} KeySumStep(f: LogKey -> int, es: seq<Entry>, n: nat)
    requires 0 < n <= |es|
    ensures SumOver(f, EntryKeys(es[..n])) == SumOver(f, EntryKeys(es[..n - 1])) + f(es[n - 1].log.Key())
  {
    assert EntryKeys(es[..n])[..n - 1] == EntryKeys(es[..n - 1]);
  }

  lemma {:induction false} TallyStep(es: seq<Entry>, n: nat, c: Column, token: Address, when: When, cfg: Config)
    requires 0 < n <= |es|
    ensures Tally(c, es[..n], token, when, cfg) == Tally(c, es[..n - 1], token, when, cfg)
      + if when(es[n - 1].time) then Adds(c, es[..n - 1], es[n - 1].log, token, cfg) else 0
  {
    assert es[..n][..n - 1] == es[..n - 1];
  }

  lemma {:induction false} TallyCounts(v: View, es: seq<Entry>, n: nat, c: Column, token: Address, when: When,
                                       cfg: Config)
    requires n <= |es| && Ledgered(v, es, cfg) && Timed(v, es) && token !in cfg.excluded
    ensures Tally(c, es[..n], token, when, cfg) == SumOver(Counted(v, c, token, when), EntryKeys(es[..n]))
  {
    if n > 0 {
      TallyCounts(v, es, n - 1, c, token, when, cfg);
      EntryCounts(v, es, n - 1, c, token, when, cfg);
      TallyStep(es, n, c, token, when, cfg);
      KeySumStep(Counted(v, c, token, when), es, n);
    }
  }

  lemma {:induction false} EntryKeysDistinct(es: seq<Entry>)
    requires Identified(es)
    ensures Distinct(EntryKeys(es)) && forall k :: k in EntryKeys(es) <==> KeyOf(es, k)
  {
    var ks := EntryKeys(es);
    forall k ensures k in ks <==> KeyOf(es, k) {
      if k in ks { var i :| 0 <= i < |ks| && ks[i] == k; assert es[i].log.Key() == k; }
      if KeyOf(es, k) { var i :| 0 <= i < |es| && es[i].log.Key() == k; assert ks[i] == k; }
    }
  }

  /** The sum over a token's stored history is the sum over the logs. */
  lemma {:induction false} HistoryIsTally(v: View, es: seq<Entry>, c: Column, token: Address, when: When, cfg: Config)
    requires Ledgered(v, es, cfg) && Timed(v, es) && Identified(es) && token !in cfg.excluded
    ensures HistoryTally(c, History(v, token), when) == Tally(c, es, token, when, cfg)
  {
    var f := Counted(v, c, token, when);
    LiveTail.HistoryStored(v, token);
    HistoryCounts(v, c, token, when, History(v, token));
    HistoryKeys(v, token);
    EntryKeysDistinct(es);
    assert es[..|es|] == es;
    TallyCounts(v, es, |es|, c, token, when, cfg);
    forall k | f(k) != 0 ensures k in PlacedKeys(History(v, token)) <==> k in EntryKeys(es) {
      assert Stored(v, k);
    }
    SameSum(f, PlacedKeys(History(v, token)), EntryKeys(es));
  }

  // ---------------------------------------------------------------- chains

  /** A chain the indexer can be fed: heights rise, hashes name blocks, and every log is named once. */
  ghost predicate Proper(chain: seq<Block>) {
    Reorg.Legal(chain) && Identified(Entries(chain))
  }

  ghost predicate Homed(chain: seq<Block>, e: Entry) {
    exists i | 0 <= i < |chain| :: e.log.blockHash == chain[i].header.hash && e.time == chain[i].header.time
  }

  lemma {:induction false} LogsHomed(v: View, b: Block, n: nat, cfg: Config)
    requires n <= |b.logs| && RecordLogs(v, b, n, cfg).Ok?
    ensures forall e | e in EntriesOf(b, n) :: e.log.blockHash == b.header.hash && e.time == b.header.time
  {
    if n > 0 {
      LogsHomed(v, b, n - 1, cfg);
      var last := Entry(b.logs[n - 1], b.header.time, b.context);
      assert EntriesOf(b, n) == EntriesOf(b, n - 1) + [last];
    }
  }

  lemma {:induction false} EntriesHomed(chain: seq<Block>, cfg: Config)
    requires ViewOf(chain, cfg).Ok?
    ensures forall e | e in Entries(chain) :: Homed(chain, e)
    decreases |chain|
  {
    if chain != [] {
      var init, b := chain[..|chain| - 1], chain[|chain| - 1];
      EntriesHomed(init, cfg);
      LogsHomed(Started(ViewOf(init, cfg).value, b.header), b, |b.logs|, cfg);
      forall e | e in Entries(chain) ensures Homed(chain, e) {
        if e in Entries(init) {
          var i :| 0 <= i < |init| && e.log.blockHash == init[i].header.hash && e.time == init[i].header.time;
          assert chain[i] == init[i];
        } else {
          assert e in EntriesOf(b, |b.logs|);
        }
      }
    }
  }

  lemma {:induction false} ChainTimed(chain: seq<Block>, cfg: Config)
    requires ViewOf(chain, cfg).Ok? && Reorg.Legal(chain)
    ensures Timed(ViewOf(chain, cfg).value, Entries(chain))
  {
    EntriesHomed(chain, cfg);
    Runs.BlocksListed(chain, cfg);
    var es := Entries(chain);
    forall n | 0 <= n < |es|
      ensures es[n].log.blockHash in ViewOf(chain, cfg).value.blocks
      ensures ViewOf(chain, cfg).value.blocks[es[n].log.blockHash].data.time == es[n].time
    {
      assert es[n] in es;
      var i :| 0 <= i < |chain| && es[n].log.blockHash == chain[i].header.hash && es[n].time == chain[i].header.time;
    }
  }

  lemma {:induction false} ChainTally(chain: seq<Block>, c: Column, token: Address, when: When, cfg: Config)
    requires Proper(chain) && ViewOf(chain, cfg).Ok? && token !in cfg.excluded
    ensures HistoryTally(c, History(ViewOf(chain, cfg).value, token), when)
         == Tally(c, Entries(chain), token, when, cfg)
  {
    ChainLedgered(chain, cfg);
    ChainTimed(chain, cfg);
    HistoryIsTally(ViewOf(chain, cfg).value, Entries(chain), c, token, when, cfg);
  }

  // ---------------------------------------------------------------- who traded

  /** The account a log trades for: the buyer, the seller, or the sender of a swap's transaction. */
  ghost function TraderIn(before: seq<Entry>, e: Entry, token: Address, cfg: Config): Option<Address> {
    match e.log.payload
    case Bought(t, buyer, _, _, _, _, _) => if t == token then Some(buyer) else None
    case Sold(t, seller, _, _, _, _, _) => if t == token then Some(seller) else None
    case Swap(_, _) =>
      if PoolOf(before, e.log.address, token, cfg) && e.log.tx in e.context.senders
      then Some(e.context.senders[e.log.tx]) else None
    case _ => None
  }

  ghost predicate TradesIn(es: seq<Entry>, n: nat, token: Address, when: When, account: Address, cfg: Config) {
    n < |es| && when(es[n].time) && TraderIn(es[..n], es[n], token, cfg) == Some(account)
  }

  /** These are the accounts that traded the token then. */
  ghost predicate Accounts(accounts: set<Address>, es: seq<Entry>, token: Address, when: When, cfg: Config) {
    forall a :: a in accounts <==> exists n: nat :: TradesIn(es, n, token, when, a, cfg)
  }

  lemma {:induction false} RowTrader(v: View, before: seq<Entry>, e: Entry, token: Address, cfg: Config)
    requires TradeRow(v, before, e, cfg) && token !in cfg.excluded
    ensures TraderIn(before, e, token, cfg)
         == if e.log.Key() in v.trades && v.trades[e.log.Key()].data.token == token
            then Some(v.trades[e.log.Key()].data.trader) else None
  {
    if e.log.payload.Swap? && PoolOf(before, e.log.address, token, cfg) {
      OneOwner(before, e.log.address, token, v.trades[e.log.Key()].data.token, cfg);
    }
  }

  /** This entry and this placed trade are the same log. */
  ghost predicate Same(e: Entry, p: Placed) {
    e.log.Key() == LogKey(p.pos.tx, p.pos.index) && e.log.block == p.pos.block && e.log.txIndex == p.pos.txIndex
    && e.time == p.time
  }

  /** Every stored trade of a token is an entry, */
  lemma {:induction false} TradeEntry(v: View, es: seq<Entry>, token: Address, p: Placed, cfg: Config) returns (n: nat)
    requires Ledgered(v, es, cfg) && Timed(v, es) && LiveTail.StoredTrade(v, token, p)
    ensures n < |es| && Same(es[n], p) && es[n].log.Key() in v.trades && v.trades[es[n].log.Key()].data == p.trade
  {
    var k := LogKey(p.pos.tx, p.pos.index);
    assert Stored(v, k);
    n :| 0 <= n < |es| && es[n].log.Key() == k;
    assert Rows(v, es[..n], es[n], cfg);
  }

  /** and every entry that left a trade of the token is stored in its history. */
  lemma {:induction false} EntryTrade(v: View, es: seq<Entry>, n: nat, token: Address, cfg: Config) returns (p: Placed)
    requires Ledgered(v, es, cfg) && Timed(v, es) && n < |es|
    requires es[n].log.Key() in v.trades && v.trades[es[n].log.Key()].data.token == token
    ensures LiveTail.StoredTrade(v, token, p) && Same(es[n], p) && p.trade == v.trades[es[n].log.Key()].data
  {
    var k := es[n].log.Key();
    assert Rows(v, es[..n], es[n], cfg);
    p := Placed(Order.Pos(es[n].log.block, es[n].log.txIndex, k.index, k.tx), es[n].time, v.trades[k].data);
  }

  ghost function TradersOf(ts: seq<Placed>): set<Address> {
    set t | t in ts :: t.trade.trader
  }

  lemma {:induction false} HistoryTraders(v: View, es: seq<Entry>, token: Address, ts: seq<Placed>, when: When,
                                          cfg: Config)
    requires Ledgered(v, es, cfg) && Timed(v, es) && token !in cfg.excluded
    requires forall p :: p in ts <==> LiveTail.StoredTrade(v, token, p) && when(p.time)
    ensures Accounts(TradersOf(ts), es, token, when, cfg)
  {
    forall a ensures a in TradersOf(ts) <==> exists n: nat :: TradesIn(es, n, token, when, a, cfg) {
      if a in TradersOf(ts) {
        var p :| p in ts && p.trade.trader == a;
        var n := TradeEntry(v, es, token, p, cfg);
        assert Rows(v, es[..n], es[n], cfg);
        RowTrader(v, es[..n], es[n], token, cfg);
        assert TradesIn(es, n, token, when, a, cfg);
      }
      if n: nat :| TradesIn(es, n, token, when, a, cfg) {
        assert Rows(v, es[..n], es[n], cfg);
        RowTrader(v, es[..n], es[n], token, cfg);
        var p := EntryTrade(v, es, n, token, cfg);
        assert p in ts;
      }
    }
  }

  lemma {:induction false} MembersOf(ts: seq<Placed>, bucket: Buckets, b: int)
    ensures forall p :: p in Members(ts, bucket, b) <==> p in ts && bucket(p.time) == b
    decreases |ts|
  {
    if ts != [] {
      var init, last := ts[..|ts| - 1], ts[|ts| - 1];
      MembersOf(init, bucket, b);
      MembersStep(init, last, bucket, b);
      assert ts == init + [last];
    }
  }

  // ---------------------------------------------------------------- prices

  const E18: nat := 1_000_000_000_000_000_000
  const E30: nat := 1_000_000_000_000_000_000_000_000_000_000

  /** The least p with p * b >= a, or one less where the kept digits lose the fraction. */
  ghost predicate CeilOf(p: nat, a: nat, b: nat, digits: Digits)
    requires b > 0
  {
    if RoundsDown(a, b, digits(a, b)) then p * b < a <= p * b + b else p * b - b < a <= p * b
  }

  /** The greatest p with p * b <= a, or one more where the kept digits round it up. */
  ghost predicate FloorOf(p: nat, a: nat, b: nat, digits: Digits)
    requires b > 0
  {
    if RoundsUp(a, b, digits(a, b)) then p * b - b <= a < p * b else p * b <= a < p * b + b
  }

  lemma {:induction false} CeilIs(a: nat, b: nat, digits: Digits)
    requires b > 0
    ensures CeilOf(CeilSql(a, b, digits(a, b)), a, b, digits)
  {
    CeilSqlExact(a, b, digits(a, b));
    Spread(Ceil(a, b), -1, b);
  }

  lemma {:induction false} FloorIs(a: nat, b: nat, digits: Digits)
    requires b > 0
    ensures FloorOf(FloorSql(a, b, digits(a, b)), a, b, digits)
  {
    FloorSqlExact(a, b, digits(a, b));
    Spread(Floor(a, b), 1, b);
  }

  /** The curve's price: virtual reserve and reserve in native units over virtual tokens not yet sold. */
  ghost predicate CurvePriced(price: Option<nat>, sold: int, reserve: int, cfg: Config) {
    var sane := 0 <= sold < 1_066_666_666_666_666_666_666_666_667 && reserve >= 0;
    (price.Some? <==> sane)
    && (sane ==> CeilOf(price.value, (cfg.virtualReserve + reserve) * E18,
                        1_066_666_666_666_666_666_666_666_667 - sold, cfg.digits))
  }

  lemma {:induction false} CurvePriceIs(s: CurveState, cfg: Config)
    ensures CurvePriced(CurvePrice(cfg.virtualReserve, s, cfg.digits), s.sold, s.reserve, cfg)
  {
    if 0 <= s.sold < VIRTUAL_TOKENS && s.reserve >= 0 {
      CeilIs((cfg.virtualReserve + s.reserve) * WAD, VIRTUAL_TOKENS - s.sold, cfg.digits);
    }
  }

  ghost predicate SwapIn(es: seq<Entry>, n: nat, token: Address, cfg: Config) {
    n < |es| && es[n].log.payload.Swap? && PoolOf(es[..n], es[n].log.address, token, cfg)
  }

  /** Earlier in (block, transaction index, log index). */
  ghost predicate Before(a: Log, b: Log) {
    a.block < b.block
    || (a.block == b.block && (a.txIndex < b.txIndex || (a.txIndex == b.txIndex
        && (a.index < b.index || (a.index == b.index && a.tx < b.tx)))))
  }

  ghost predicate NewestSwap(es: seq<Entry>, n: nat, token: Address, cfg: Config) {
    SwapIn(es, n, token, cfg) && forall m: nat | SwapIn(es, m, token, cfg) && m != n :: Before(es[m].log, es[n].log)
  }

  /** The price of a swap: its USDC over its tokens, in native units for a whole token. */
  ghost predicate SwapPriced(price: Option<nat>, l: Log, token: Address, cfg: Config)
    requires l.payload.Swap?
  {
    var tokens := Swaps.Abs(if token < Swaps.USDC then l.payload.amount0 else l.payload.amount1);
    var usdc := Swaps.Abs(if token < Swaps.USDC then l.payload.amount1 else l.payload.amount0);
    price.Some? && tokens > 0 && FloorOf(price.value, usdc * E30, tokens, cfg.digits)
  }

  lemma {:induction false} LastPoolIs(ts: seq<Placed>) returns (i: nat)
    ensures LastPool(ts).None? ==> forall p | p in ts :: p.trade.source.CurveSource?
    ensures LastPool(ts).Some? ==> i < |ts| && ts[i].trade == LastPool(ts).value && ts[i].trade.source.PoolSource?
    ensures LastPool(ts).Some? ==> forall j | i < j < |ts| :: ts[j].trade.source.CurveSource?
    decreases |ts|
  {
    i := 0;
    if ts != [] {
      if ts[|ts| - 1].trade.source.PoolSource? {
        i := |ts| - 1;
      } else {
        i := LastPoolIs(ts[..|ts| - 1]);
        assert ts == ts[..|ts| - 1] + [ts[|ts| - 1]];
      }
    }
  }

  /** A swap of the token's pool left a pool trade of the token. */
  lemma {:induction false} SwapTraded(v: View, es: seq<Entry>, m: nat, token: Address, cfg: Config) returns (p: Placed)
    requires Ledgered(v, es, cfg) && Timed(v, es) && SwapIn(es, m, token, cfg)
    ensures LiveTail.StoredTrade(v, token, p) && Same(es[m], p) && p.trade.source.PoolSource?
  {
    assert Rows(v, es[..m], es[m], cfg);
    OneOwner(es[..m], es[m].log.address, token, v.trades[es[m].log.Key()].data.token, cfg);
    p := EntryTrade(v, es, m, token, cfg);
  }

  lemma {:induction false} SwapStored(v: View, es: seq<Entry>, m: nat, token: Address, cfg: Config)
    requires Ledgered(v, es, cfg) && Timed(v, es) && SwapIn(es, m, token, cfg)
    ensures exists p | p in History(v, token) :: p.trade.source.PoolSource?
  {
    LiveTail.HistoryStored(v, token);
    var p := SwapTraded(v, es, m, token, cfg);
    assert p in History(v, token);
  }

  lemma {:induction false} NewestIs(v: View, es: seq<Entry>, token: Address, cfg: Config, i: nat) returns (n: nat)
    requires Ledgered(v, es, cfg) && Timed(v, es) && Identified(es)
    requires var h := History(v, token);
      i < |h| && h[i].trade.source.PoolSource? && forall j | i < j < |h| :: h[j].trade.source.CurveSource?
    ensures NewestSwap(es, n, token, cfg) && SwapRow(History(v, token)[i].trade, es[n])
      && History(v, token)[i].trade.token == token
  {
    var h := History(v, token);
    LiveTail.HistoryStored(v, token);
    assert h[i] in h;
    n := TradeEntry(v, es, token, h[i], cfg);
    assert Rows(v, es[..n], es[n], cfg);
    forall m: nat | SwapIn(es, m, token, cfg) && m != n ensures Before(es[m].log, es[n].log) {
      var p := SwapTraded(v, es, m, token, cfg);
      var j :| 0 <= j < |h| && h[j] == p;
      assert j < i by { assert es[m].log.Key() != es[n].log.Key(); }
      assert Order.Less(h[j].pos, h[i].pos);
    }
  }

  ghost predicate Priced(price: Option<nat>, es: seq<Entry>, token: Address, cfg: Config) {
    if exists n: nat :: SwapIn(es, n, token, cfg) then
      exists n: nat :: NewestSwap(es, n, token, cfg) && SwapPriced(price, es[n].log, token, cfg)
    else CurvePriced(price, Tally(SoldSupply, es, token, ALWAYS, cfg), Tally(CurveReserve, es, token, ALWAYS, cfg), cfg)
  }

  lemma {:induction false} SwapPriceIs(t: Trade, e: Entry, cfg: Config)
    requires e.log.payload.Swap? && SwapRow(t, e)
    ensures SwapPriced(PoolPrice(t, cfg.digits), e.log, t.token, cfg)
  {
    FloorIs(t.reserve * (WAD * USDC_TO_WAD), t.tokens, cfg.digits);
  }

  lemma {:induction false} PriceIs(v: View, es: seq<Entry>, token: Address, cfg: Config)
    requires Ledgered(v, es, cfg) && Timed(v, es) && Identified(es) && token !in cfg.excluded
    ensures Priced(CurrentPrice(History(v, token), cfg.virtualReserve, cfg.digits), es, token, cfg)
  {
    var h := History(v, token);
    LiveTail.HistoryStored(v, token);
    var i := LastPoolIs(h);
    if LastPool(h).Some? {
      var n := NewestIs(v, es, token, cfg, i);
      SwapPriceIs(h[i].trade, es[n], cfg);
      assert SwapIn(es, n, token, cfg);
    } else {
      forall n: nat ensures !SwapIn(es, n, token, cfg) {
        if SwapIn(es, n, token, cfg) { SwapStored(v, es, n, token, cfg); }
      }
      CurvePriceIs(Aggregate(h), cfg);
      AggregateTally(h);
      HistoryIsTally(v, es, SoldSupply, token, ALWAYS, cfg);
      HistoryIsTally(v, es, CurveReserve, token, ALWAYS, cfg);
    }
  }

  // ---------------------------------------------------------------- the derived rows

  /** Entry i is the newest launch of the token. */
  ghost predicate NewestLaunch(es: seq<Entry>, i: nat, token: Address, cfg: Config) {
    i < |es| && LaunchOf(es[i].log, token, cfg)
    && forall j | 0 <= j < |es| && j != i && LaunchOf(es[j].log, token, cfg) :: Later(es[i].log, es[j].log)
  }

  /** A launch of the token that the application shows. */
  ghost predicate LaunchOf(l: Log, token: Address, cfg: Config) {
    Ledger.Launches(l, cfg) && l.payload.token == token
  }

  ghost predicate LaunchedIn(es: seq<Entry>, token: Address, cfg: Config) {
    exists n | 0 <= n < |es| :: LaunchOf(es[n].log, token, cfg)
  }

  lemma {:induction false} TokensLaunched(v: View, es: seq<Entry>, token: Address, cfg: Config)
    requires CurveRowsAre(v, es, cfg)
    ensures token in Views.Tokens(v) <==> LaunchedIn(es, token, cfg)
  {
    if token in Views.Tokens(v) {
      var k :| k in v.tokens && v.tokens[k].data.token == token;
      var i :| 0 <= i < |es| && es[i].log.Key() == k;
      assert LaunchRows(v, es[i], cfg);
    }
    if n :| 0 <= n < |es| && LaunchOf(es[n].log, token, cfg) { assert LaunchRows(v, es[n], cfg); }
  }

  lemma {:induction false} SupplyIs(v: View, es: seq<Entry>, token: Address, cfg: Config) returns (i: nat)
    requires CurveRowsAre(v, es, cfg) && Identified(es) && token in Views.Tokens(v)
    ensures NewestLaunch(es, i, token, cfg) && SupplyOf(v, token) == es[i].log.payload.supply
  {
    var keys := set k | k in v.tokens && v.tokens[k].data.token == token;
    var k0 :| k0 in v.tokens && v.tokens[k0].data.token == token;
    assert k0 in keys;
    var k := Newest(v.tokens, keys).value;
    i :| 0 <= i < |es| && es[i].log.Key() == k;
    assert LaunchRows(v, es[i], cfg);
    forall j | 0 <= j < |es| && j != i && LaunchOf(es[j].log, token, cfg) ensures Later(es[i].log, es[j].log) {
      assert LaunchRows(v, es[j], cfg);
      assert es[j].log.Key() in keys && es[j].log.Key() != k;
    }
  }

  ghost predicate GraduatedIn(es: seq<Entry>, token: Address) {
    exists n | 0 <= n < |es| :: es[n].log.payload.Graduated? && es[n].log.payload.token == token
  }

  /** Sold supply and reserve are what went out of and into the curve. */
  ghost predicate ColumnsAre(columns: CurveColumns, es: seq<Entry>, token: Address, cfg: Config) {
    columns.sold == Tally(SoldSupply, es, token, ALWAYS, cfg)
    && columns.reserve == Tally(CurveReserve, es, token, ALWAYS, cfg)
    && (columns.graduated <==> GraduatedIn(es, token))
  }

  lemma {:induction false} GraduatedIs(v: View, es: seq<Entry>, token: Address, cfg: Config)
    requires EventsAre(v, es, cfg)
    ensures (exists k | k in v.events :: v.events[k].data.payload.Graduated?
                                         && v.events[k].data.payload.token == token) <==> GraduatedIn(es, token)
  {
    if k :| k in v.events && v.events[k].data.payload.Graduated? && v.events[k].data.payload.token == token {
      var i :| 0 <= i < |es| && es[i].log.Key() == k;
      assert EventRow(v, es[..i], es[i].log, cfg);
    }
    if n :| 0 <= n < |es| && es[n].log.payload.Graduated? && es[n].log.payload.token == token {
      assert EventRow(v, es[..n], es[n].log, cfg);
    }
  }

  lemma {:induction false} ColumnsTally(v: View, es: seq<Entry>, token: Address, cfg: Config)
    requires Ledgered(v, es, cfg) && Timed(v, es) && Identified(es) && token !in cfg.excluded
    ensures ColumnsAre(ColumnsOf(v, token), es, token, cfg)
  {
    AggregateTally(History(v, token));
    HistoryIsTally(v, es, SoldSupply, token, ALWAYS, cfg);
    HistoryIsTally(v, es, CurveReserve, token, ALWAYS, cfg);
    LedgeredEvents(v, es, cfg);
    GraduatedIs(v, es, token, cfg);
  }

  /** A column of metrics counts what the logs add, each account once. */
  ghost predicate CountsAre(trades: nat, buys: nat, sells: nat, volume: nat, traders: nat, es: seq<Entry>,
                            token: Address, when: When, cfg: Config) {
    trades == Tally(Trades, es, token, when, cfg) && buys == Tally(Buys, es, token, when, cfg)
    && sells == Tally(Sells, es, token, when, cfg) && volume == Tally(Volume, es, token, when, cfg)
    && exists accounts :: Accounts(accounts, es, token, when, cfg) && traders == |accounts|
  }

  /** The fully diluted value is the price of the launched supply. */
  ghost predicate Diluted(diluted: Option<nat>, price: Option<nat>, es: seq<Entry>, token: Address, cfg: Config) {
    (diluted.Some? <==> price.Some?)
    && (price.Some? ==>
          exists i: nat :: NewestLaunch(es, i, token, cfg)
                           && FloorOf(diluted.value, price.value * es[i].log.payload.supply, E18, cfg.digits))
  }

  ghost predicate MetricsAre(m: Metrics, es: seq<Entry>, token: Address, cfg: Config) {
    CountsAre(m.trades, m.buys, m.sells, m.volume, m.traders, es, token, ALWAYS, cfg)
    && m.fees == Tally(Fees, es, token, ALWAYS, cfg)
    && Priced(m.price, es, token, cfg) && Diluted(m.diluted, m.price, es, token, cfg)
  }

  /** The additive columns of one hour. */
  ghost predicate CandleIs(c: Candle, es: seq<Entry>, token: Address, b: int, cfg: Config) {
    CountsAre(c.trades, c.buys, c.sells, c.volume, c.traders, es, token, In(Bucketing(Every(3600)), b), cfg)
  }

  lemma {:induction false} CountsTally(v: View, es: seq<Entry>, token: Address, ts: seq<Placed>, when: When,
                                       cfg: Config)
    requires Ledgered(v, es, cfg) && Timed(v, es) && Identified(es) && token !in cfg.excluded
    requires SumsAre(ts, History(v, token), when)
    requires forall p :: p in ts <==> LiveTail.StoredTrade(v, token, p) && when(p.time)
    ensures CountsAre(Sum(One, ts), Sum(IsBuy, ts), Sum(IsSell, ts), Sum(VolumeOf, ts), |TradersOf(ts)|, es, token,
      when, cfg)
    ensures Sum(FeesOf, ts) == Tally(Fees, es, token, when, cfg)
  {
    HistoryIsTally(v, es, Trades, token, when, cfg);
    HistoryIsTally(v, es, Buys, token, when, cfg);
    HistoryIsTally(v, es, Sells, token, when, cfg);
    HistoryIsTally(v, es, Volume, token, when, cfg);
    HistoryIsTally(v, es, Fees, token, when, cfg);
    HistoryTraders(v, es, token, ts, when, cfg);
  }

  lemma {:induction false} DilutedIs(price: Option<nat>, es: seq<Entry>, i: nat, token: Address, cfg: Config)
    requires NewestLaunch(es, i, token, cfg)
    ensures Diluted(DilutedValue(price, es[i].log.payload.supply, cfg.digits), price, es, token, cfg)
  {
    if price.Some? { FloorIs(price.value * es[i].log.payload.supply, WAD, cfg.digits); }
  }

  lemma {:induction false} MetricsBy(ts: seq<Placed>, supply: nat, es: seq<Entry>, token: Address, cfg: Config)
    requires CountsAre(Sum(One, ts), Sum(IsBuy, ts), Sum(IsSell, ts), Sum(VolumeOf, ts), |TradersOf(ts)|, es, token,
      ALWAYS, cfg)
    requires Sum(FeesOf, ts) == Tally(Fees, es, token, ALWAYS, cfg)
    requires var price := CurrentPrice(ts, cfg.virtualReserve, cfg.digits);
      Priced(price, es, token, cfg) && Diluted(DilutedValue(price, supply, cfg.digits), price, es, token, cfg)
    ensures MetricsAre(MetricsOf(ts, supply, cfg.virtualReserve, cfg.digits), es, token, cfg)
  {
  }

  lemma {:induction false} MetricsAreTallies(v: View, es: seq<Entry>, token: Address, cfg: Config)
    requires Ledgered(v, es, cfg) && Timed(v, es) && Identified(es) && token !in cfg.excluded
    requires token in Views.Tokens(v)
    ensures MetricsAre(MetricsOf(History(v, token), SupplyOf(v, token), cfg.virtualReserve, cfg.digits), es, token, cfg)
  {
    var h := History(v, token);
    LiveTail.HistoryStored(v, token);
    MetricsTally(h);
    CountsTally(v, es, token, h, ALWAYS, cfg);
    PriceIs(v, es, token, cfg);
    LedgeredCurves(v, es, cfg);
    var i := SupplyIs(v, es, token, cfg);
    DilutedIs(CurrentPrice(h, cfg.virtualReserve, cfg.digits), es, i, token, cfg);
    MetricsBy(h, SupplyOf(v, token), es, token, cfg);
  }

  lemma {:induction false} CandlesAreTallies(v: View, es: seq<Entry>, token: Address, cfg: Config)
    requires Ledgered(v, es, cfg) && Timed(v, es) && Identified(es) && token !in cfg.excluded
    ensures var cs := Candles(History(v, token), Bucketing(Every(3600)), cfg.virtualReserve, cfg.digits);
      forall b | b in cs :: CandleIs(cs[b], es, token, b, cfg)
  {
    var h, hourly := History(v, token), Bucketing(Every(3600));
    var cs := Candles(h, hourly, cfg.virtualReserve, cfg.digits);
    LiveTail.HistoryStored(v, token);
    forall b | b in cs ensures CandleIs(cs[b], es, token, b, cfg) {
      BucketTally(h, hourly, b);
      MembersOf(h, hourly, b);
      CountsTally(v, es, token, Members(h, hourly, b), In(hourly, b), cfg);
    }
  }
}
