/** Which rows each log of a chain leaves in the tables, column by column in the log's own fields, and
    that the tables hold nothing else. */
module Ledger {
  import opened Wrappers
  import opened Chain
  import opened Analytics
  import opened Tables
  import opened Views
  import Pairing
  import Reorg
  import Runs
  import Swaps

  /** A log with what its block and the caller of Apply supply. */
  datatype Entry = Entry(log: Log, time: nat, context: Context)

  ghost function EntriesOf(b: Block, n: nat): seq<Entry>
    requires n <= |b.logs|
  {
    seq(n, i requires 0 <= i < n => Entry(b.logs[i], b.header.time, b.context))
  }

  /** The logs of a chain in the order in which they are recorded. */
  ghost function Entries(chain: seq<Block>): seq<Entry>
    decreases |chain|
  {
    if chain == [] then []
    else Entries(chain[..|chain| - 1]) + EntriesOf(chain[|chain| - 1], |chain[|chain| - 1].logs|)
  }

  /** A (transaction, log index) names one log. */
  ghost predicate Identified(es: seq<Entry>) {
    forall i, j | 0 <= i < j < |es| :: es[i].log.Key() != es[j].log.Key()
  }

  // ---------------------------------------------------------------- what earlier logs decide

  /** CTO logs count only from the configured roots and from treasuries that the registry deployed earlier. */
  ghost predicate Believed(before: seq<Entry>, l: Log, roots: Roots)
    requires l.payload.Cto?
  {
    var e := l.payload.event;
    roots.registry != ZERO_ADDRESS && roots.feeManager != ZERO_ADDRESS
    && (e.TreasuryDeployed? || e.Proposed? || e.Accepted? || e.Ready? || e.Cancelled? || e.Expired? || e.Activated? ==>
          l.address == roots.registry)
    && (e.FeeCheckpointed? || e.PayoutInvalidated? || e.RouteActivated? || e.FeesClaimed? ==>
          l.address == roots.feeManager)
    && (e.AcceptanceSubmitted? || e.AssetRegistered? || e.AssetTransferred? || e.FeesPulled? ==>
          exists i | 0 <= i < |before| :: Deployed(before[i].log, l.address, roots))
  }

  ghost predicate Deployed(l: Log, treasury: Address, roots: Roots) {
    l.payload.Cto? && l.payload.event.TreasuryDeployed? && l.payload.event.treasury == treasury
    && l.address == roots.registry
  }

  /** A launch that the application shows. */
  ghost predicate Launches(l: Log, cfg: Config) {
    l.payload.Launch? && l.payload.token !in cfg.excluded
  }

  ghost predicate Opens(l: Log, pool: Address, cfg: Config) {
    Launches(l, cfg) && l.payload.pool == pool
  }

  /** Later by block and log index; the transaction hash breaks ties. */
  ghost predicate Later(a: Log, b: Log) {
    a.block > b.block || (a.block == b.block && (a.index > b.index || (a.index == b.index && a.tx > b.tx)))
  }

  /** Entry i is the newest launch that opened this pool. */
  ghost predicate Owns(before: seq<Entry>, i: nat, pool: Address, cfg: Config) {
    i < |before| && Opens(before[i].log, pool, cfg)
    && forall j | 0 <= j < |before| && j != i && Opens(before[j].log, pool, cfg) :: Later(before[i].log, before[j].log)
  }

  /** The pool is this token's. */
  ghost predicate PoolOf(before: seq<Entry>, pool: Address, token: Address, cfg: Config) {
    exists i: nat :: Owns(before, i, pool, cfg) && before[i].log.payload.token == token
  }

  // ---------------------------------------------------------------- the rows of one log

  ghost predicate Stamps<T>(f: Fact<T>, l: Log) {
    f.block == l.block && f.hash == l.blockHash
  }

  ghost predicate EventRow(v: View, before: seq<Entry>, l: Log, cfg: Config) {
    var k := l.Key();
    (k in v.events <==> !l.payload.Unknown? && (l.payload.Cto? ==> Believed(before, l, cfg.roots)))
    && (k in v.events ==>
          Stamps(v.events[k], l) && v.events[k].data.txIndex == l.txIndex && v.events[k].data.address == l.address
          && v.events[k].data.payload == l.payload)
  }

  /** A launch leaves a token and a curve. */
  ghost predicate LaunchRows(v: View, e: Entry, cfg: Config) {
    var l, k := e.log, e.log.Key();
    (k in v.tokens <==> Launches(l, cfg)) && (k in v.curves <==> Launches(l, cfg))
    && (Launches(l, cfg) ==>
          var p, token, curve := l.payload, v.tokens[k].data, v.curves[k].data;
          p.token in e.context.metadata && Stamps(v.tokens[k], l) && Stamps(v.curves[k], l)
          && token.token == p.token && token.creator == p.creator && token.supply == p.supply
          && token.name == e.context.metadata[p.token].name && token.name != ""
          && token.symbol == e.context.metadata[p.token].symbol && token.symbol != ""
          && e.context.metadata[p.token].decimals == 18
          && curve.token == p.token && curve.curve == p.curve && curve.pool == p.pool && curve.creator == p.creator
          && curve.allocation == p.allocation)
  }

  /** What a buy on the curve stores. */
  ghost predicate BuyRow(t: Trade, l: Log)
    requires l.payload.Bought?
  {
    t.source == CurveSource && t.side == Buy && t.token == l.payload.token && t.trader == l.payload.buyer
    && t.tokens == l.payload.tokensOut && t.reserve == l.payload.acceptedGross && t.value == l.payload.netCurveInput
    && t.protocolFee == l.payload.protocolFee && t.creatorFee == l.payload.creatorFee && t.txIndex == l.txIndex
  }

  ghost predicate SellRow(t: Trade, l: Log)
    requires l.payload.Sold?
  {
    t.source == CurveSource && t.side == Sell && t.token == l.payload.token && t.trader == l.payload.seller
    && t.tokens == l.payload.tokensIn && t.reserve == l.payload.netSellerOutput && t.value == l.payload.grossCurveOutput
    && t.protocolFee == l.payload.protocolFee && t.creatorFee == l.payload.creatorFee && t.txIndex == l.txIndex
  }

  /** What a swap stores: the amounts the pool exchanged, for the transaction's sender, without fees. */
  ghost predicate SwapRow(t: Trade, e: Entry)
    requires e.log.payload.Swap?
  {
    var p := e.log.payload;
    var token, usdc := if t.token < 0x3600000000000000000000000000000000000000 then p.amount0 else p.amount1,
      if t.token < 0x3600000000000000000000000000000000000000 then p.amount1 else p.amount0;
    t.source == PoolSource && t.txIndex == e.log.txIndex && t.protocolFee == 0 && t.creatorFee == 0
    && e.log.tx in e.context.senders && t.trader == e.context.senders[e.log.tx] && t.trader != ZERO_ADDRESS
    && t.tokens > 0 && t.reserve > 0 && t.value == t.reserve
    && (if t.side.Buy? then token == -(t.tokens as int) && usdc == t.reserve
        else token == t.tokens && usdc == -(t.reserve as int))
  }

  ghost predicate TradeRow(v: View, before: seq<Entry>, e: Entry, cfg: Config) {
    var l, k := e.log, e.log.Key();
    (k in v.trades ==> Stamps(v.trades[k], l))
    && match l.payload
       case Bought(token, _, _, _, _, _, _) =>
         if token in cfg.excluded then k !in v.trades else k in v.trades && BuyRow(v.trades[k].data, l)
       case Sold(token, _, _, _, _, _, _) =>
         if token in cfg.excluded then k !in v.trades else k in v.trades && SellRow(v.trades[k].data, l)
       case Swap(_, _) =>
         (k in v.trades <==> exists token :: PoolOf(before, l.address, token, cfg))
         && (k in v.trades ==> PoolOf(before, l.address, v.trades[k].data.token, cfg) && SwapRow(v.trades[k].data, e))
       case _ => k !in v.trades
  }

  /** A graduation and its settlement leave one row each. */
  ghost predicate GraduationRows(v: View, l: Log, cfg: Config) {
    var k := l.Key();
    (k in v.graduations <==> l.payload.Graduated? && l.payload.token !in cfg.excluded)
    && (k in v.graduations ==>
          var g := v.graduations[k].data;
          Stamps(v.graduations[k], l) && g.token == l.payload.token && g.manager == l.payload.manager
          && g.soldSupply == l.payload.soldSupply && g.tokens == l.payload.tokenAmount
          && g.nativeUsdc == l.payload.nativeUsdc)
    && (k in v.liquidity <==> l.payload.Settled? && l.payload.token !in cfg.excluded)
    && (k in v.liquidity ==>
          var q := v.liquidity[k].data;
          Stamps(v.liquidity[k], l) && q.token == l.payload.token && q.manager == l.address
          && q.custodian == l.payload.custodian && q.position == l.payload.position && q.amount == l.payload.liquidity)
  }

  ghost predicate Rows(v: View, before: seq<Entry>, e: Entry, cfg: Config) {
    EventRow(v, before, e.log, cfg) && LaunchRows(v, e, cfg) && TradeRow(v, before, e, cfg)
    && GraduationRows(v, e.log, cfg)
  }

  ghost predicate Stored(v: View, k: LogKey) {
    k in v.events || k in v.tokens || k in v.curves || k in v.trades || k in v.graduations || k in v.liquidity
  }

  ghost predicate KeyOf(es: seq<Entry>, k: LogKey) {
    exists i | 0 <= i < |es| :: es[i].log.Key() == k
  }

  /** The tables hold the rows of these logs and nothing else. */
  ghost predicate Ledgered(v: View, es: seq<Entry>, cfg: Config) {
    (forall n | 0 <= n < |es| :: Rows(v, es[..n], es[n], cfg)) && forall k | Stored(v, k) :: KeyOf(es, k)
  }

  // ---------------------------------------------------------------- the lookups

  ghost predicate CurveRowsAre(v: View, es: seq<Entry>, cfg: Config) {
    (forall n | 0 <= n < |es| :: LaunchRows(v, es[n], cfg)) && forall k | k in v.curves || k in v.tokens :: KeyOf(es, k)
  }

  lemma {:induction false} LedgeredCurves(v: View, es: seq<Entry>, cfg: Config)
    requires Ledgered(v, es, cfg)
    ensures CurveRowsAre(v, es, cfg)
  {
    forall n | 0 <= n < |es| ensures LaunchRows(v, es[n], cfg) { assert Rows(v, es[..n], es[n], cfg); }
    forall k | k in v.curves || k in v.tokens ensures KeyOf(es, k) { assert Stored(v, k); }
  }

  /** The curve rows that the pool lookup considers are the launches that opened the pool. */
  lemma {:induction false} Candidate(v: View, es: seq<Entry>, i: nat, pool: Address, cfg: Config)
    requires CurveRowsAre(v, es, cfg) && i < |es|
    ensures var k := es[i].log.Key();
      Opens(es[i].log, pool, cfg) <==>
      k in v.curves && v.curves[k].data.pool == pool
      && exists t | t in v.tokens :: v.tokens[t].data.token == v.curves[k].data.token
  {
    assert LaunchRows(v, es[i], cfg);
    var k := es[i].log.Key();
    if Opens(es[i].log, pool, cfg) { assert k in v.tokens && v.tokens[k].data.token == v.curves[k].data.token; }
  }

  lemma {:induction false} OwnerIs(v: View, es: seq<Entry>, pool: Address, cfg: Config)
    requires CurveRowsAre(v, es, cfg) && Identified(es)
    ensures match PoolOwner(v.curves, v.tokens, pool)
            case None => forall i | 0 <= i < |es| :: !Opens(es[i].log, pool, cfg)
            case Some(token) => PoolOf(es, pool, token, cfg)
  {
    var keys := set k | k in v.curves && v.curves[k].data.pool == pool
                        && exists t | t in v.tokens :: v.tokens[t].data.token == v.curves[k].data.token;
    forall i | 0 <= i < |es| ensures Opens(es[i].log, pool, cfg) <==> es[i].log.Key() in keys {
      Candidate(v, es, i, pool, cfg);
    }
    match Newest(v.curves, keys) {
      case None =>
      case Some(k) =>
        var i :| 0 <= i < |es| && es[i].log.Key() == k;
        assert LaunchRows(v, es[i], cfg);
        forall j | 0 <= j < |es| && j != i && Opens(es[j].log, pool, cfg) ensures Later(es[i].log, es[j].log) {
          assert LaunchRows(v, es[j], cfg);
          assert es[j].log.Key() in keys && es[j].log.Key() != k;
        }
        assert Owns(es, i, pool, cfg);
    }
  }

  lemma {:induction false} PoolOpened(es: seq<Entry>, pool: Address, token: Address, cfg: Config)
    requires PoolOf(es, pool, token, cfg)
    ensures exists i :: 0 <= i < |es| && Opens(es[i].log, pool, cfg)
  {
    var i: nat :| Owns(es, i, pool, cfg) && es[i].log.payload.token == token;
  }

  lemma {:induction false} NoPool(es: seq<Entry>, pool: Address, cfg: Config)
    requires forall i | 0 <= i < |es| :: !Opens(es[i].log, pool, cfg)
    ensures forall token :: !PoolOf(es, pool, token, cfg)
  {
    forall token ensures !PoolOf(es, pool, token, cfg) {
      if PoolOf(es, pool, token, cfg) { PoolOpened(es, pool, token, cfg); }
    }
  }

  lemma {:induction false} OneOwner(es: seq<Entry>, pool: Address, a: Address, b: Address, cfg: Config)
    requires PoolOf(es, pool, a, cfg) && PoolOf(es, pool, b, cfg)
    ensures a == b
  {
    var i: nat :| Owns(es, i, pool, cfg) && es[i].log.payload.token == a;
    var j: nat :| Owns(es, j, pool, cfg) && es[j].log.payload.token == b;
    assert i == j;
  }

  ghost predicate EventsAre(v: View, es: seq<Entry>, cfg: Config) {
    (forall n | 0 <= n < |es| :: EventRow(v, es[..n], es[n].log, cfg)) && forall k | k in v.events :: KeyOf(es, k)
  }

  lemma {:induction false} LedgeredEvents(v: View, es: seq<Entry>, cfg: Config)
    requires Ledgered(v, es, cfg)
    ensures EventsAre(v, es, cfg)
  {
    forall n | 0 <= n < |es| ensures EventRow(v, es[..n], es[n].log, cfg) { assert Rows(v, es[..n], es[n], cfg); }
    forall k | k in v.events ensures KeyOf(es, k) { assert Stored(v, k); }
  }

  /** Trust, as the deployments among the recorded logs decide it. */
  lemma {:induction false} TrustIs(v: View, es: seq<Entry>, l: Log, cfg: Config)
    requires EventsAre(v, es, cfg)
    ensures TrustedLog(v, l, cfg.roots) <==> l.payload.Cto? && Believed(es, l, cfg.roots)
  {
    if l.payload.Cto? && cfg.roots.Configured() && KindOf(l.payload.event).TreasuryKind? {
      if k :| k in v.events && Deploys(v.events[k].data, l.address, cfg.roots) {
        var i :| 0 <= i < |es| && es[i].log.Key() == k;
        assert EventRow(v, es[..i], es[i].log, cfg);
        assert Deployed(es[i].log, l.address, cfg.roots);
      }
      if i :| 0 <= i < |es| && Deployed(es[i].log, l.address, cfg.roots) {
        assert EventRow(v, es[..i], es[i].log, cfg);
        assert Deploys(v.events[es[i].log.Key()].data, l.address, cfg.roots);
      }
    }
  }

  // ---------------------------------------------------------------- one log more

  /** No table has a row of this log yet. */
  ghost predicate New(v: View, l: Log) {
    !Stored(v, l.Key())
  }

  /** What is recorded, given the answers of the two lookups. */
  lemma {:induction false} EffectRows(v: View, before: seq<Entry>, e: Entry, trusted: bool, owner: Option<Address>,
                                      w: Writes, cfg: Config)
    requires New(v, e.log) && Effects(e.log, trusted, owner, e.context, cfg) == Ok(w)
    requires trusted <==> e.log.payload.Cto? && Believed(before, e.log, cfg.roots)
    requires match owner
             case None => forall i | 0 <= i < |before| :: !Opens(before[i].log, e.log.address, cfg)
             case Some(token) => PoolOf(before, e.log.address, token, cfg)
    ensures Rows(PutAll(v, e.log, w), before, e, cfg)
  {
    var t := PutAll(v, e.log, w);
    EffectEvent(v, before, e, trusted, owner, w, cfg);
    EffectLaunch(v, e, trusted, owner, w, cfg);
    EffectGraduation(v, e, trusted, owner, w, cfg);
    EffectTrade(v, before, e, trusted, owner, w, cfg);
  }

  lemma {:induction false} EffectEvent(v: View, before: seq<Entry>, e: Entry, trusted: bool, owner: Option<Address>,
                                       w: Writes, cfg: Config)
    requires New(v, e.log) && Effects(e.log, trusted, owner, e.context, cfg) == Ok(w)
    requires trusted <==> e.log.payload.Cto? && Believed(before, e.log, cfg.roots)
    ensures EventRow(PutAll(v, e.log, w), before, e.log, cfg)
  {
  }

  lemma {:induction false} EffectLaunch(v: View, e: Entry, trusted: bool, owner: Option<Address>, w: Writes,
                                        cfg: Config)
    requires New(v, e.log) && Effects(e.log, trusted, owner, e.context, cfg) == Ok(w)
    ensures LaunchRows(PutAll(v, e.log, w), e, cfg)
  {
  }

  lemma {:induction false} EffectGraduation(v: View, e: Entry, trusted: bool, owner: Option<Address>, w: Writes,
                                            cfg: Config)
    requires New(v, e.log) && Effects(e.log, trusted, owner, e.context, cfg) == Ok(w)
    ensures GraduationRows(PutAll(v, e.log, w), e.log, cfg)
  {
  }

  lemma {:induction false} EffectTrade(v: View, before: seq<Entry>, e: Entry, trusted: bool, owner: Option<Address>,
                                       w: Writes, cfg: Config)
    requires New(v, e.log) && Effects(e.log, trusted, owner, e.context, cfg) == Ok(w)
    requires match owner
             case None => forall i | 0 <= i < |before| :: !Opens(before[i].log, e.log.address, cfg)
             case Some(token) => PoolOf(before, e.log.address, token, cfg)
    ensures TradeRow(PutAll(v, e.log, w), before, e, cfg)
  {
    if e.log.payload.Swap? {
      if owner.Some? {
        Swaps.ReadingMeansExchange(owner.value, e.log.payload.amount0, e.log.payload.amount1);
      } else {
        NoPool(before, e.log.address, cfg);
      }
    }
  }

  /** The rows of other logs stay. */
  lemma {:induction false} OthersStay(v: View, l: Log, w: Writes, before: seq<Entry>, e: Entry, cfg: Config)
    requires e.log.Key() != l.Key()
    ensures Rows(PutAll(v, l, w), before, e, cfg) <==> Rows(v, before, e, cfg)
  {
    var t := PutAll(v, l, w);
    assert EventRow(t, before, e.log, cfg) <==> EventRow(v, before, e.log, cfg);
    assert LaunchRows(t, e, cfg) <==> LaunchRows(v, e, cfg);
    assert TradeRow(t, before, e, cfg) <==> TradeRow(v, before, e, cfg);
    assert GraduationRows(t, e.log, cfg) <==> GraduationRows(v, e.log, cfg);
  }

  lemma {:induction false} RecordedRows(v: View, es: seq<Entry>, e: Entry, cfg: Config)
    requires Ledgered(v, es, cfg) && Identified(es + [e]) && RecordLog(v, e.log, e.context, cfg).Ok?
    ensures Ledgered(RecordLog(v, e.log, e.context, cfg).value, es + [e], cfg)
  {
    var l, all, t := e.log, es + [e], RecordLog(v, e.log, e.context, cfg).value;
    var w := EffectsIn(v, l, e.context, cfg).value;
    Fresh(v, es, e, cfg);
    LookupsAre(v, es, e, cfg);
    EffectRows(v, es, e, TrustedLog(v, l, cfg.roots), PoolOwner(v.curves, v.tokens, l.address), w, cfg);
    forall n | 0 <= n < |all| ensures Rows(t, all[..n], all[n], cfg) {
      if n < |es| {
        assert all[..n] == es[..n] && all[n] == es[n] && all[|es|] == e;
        assert Rows(v, es[..n], es[n], cfg);
        OthersStay(v, l, w, es[..n], es[n], cfg);
      } else {
        assert all[..n] == es && all[n] == e;
      }
    }
    KeysGrow(v, es, e, w);
  }

  lemma {:induction false} Fresh(v: View, es: seq<Entry>, e: Entry, cfg: Config)
    requires Ledgered(v, es, cfg) && Identified(es + [e])
    ensures New(v, e.log) && Identified(es)
  {
    var all := es + [e];
    forall i, j | 0 <= i < j < |es| ensures es[i].log.Key() != es[j].log.Key() {
      assert all[i] == es[i] && all[j] == es[j];
    }
    assert all[|es|] == e && forall i | 0 <= i < |es| :: all[i] == es[i];
    assert !KeyOf(es, e.log.Key());
  }

  lemma {:induction false} LookupsAre(v: View, es: seq<Entry>, e: Entry, cfg: Config)
    requires Ledgered(v, es, cfg) && Identified(es)
    ensures TrustedLog(v, e.log, cfg.roots) <==> e.log.payload.Cto? && Believed(es, e.log, cfg.roots)
    ensures match PoolOwner(v.curves, v.tokens, e.log.address)
            case None => forall i | 0 <= i < |es| :: !Opens(es[i].log, e.log.address, cfg)
            case Some(token) => PoolOf(es, e.log.address, token, cfg)
  {
    LedgeredCurves(v, es, cfg);
    LedgeredEvents(v, es, cfg);
    OwnerIs(v, es, e.log.address, cfg);
    TrustIs(v, es, e.log, cfg);
  }

  lemma {:induction false} KeysGrow(v: View, es: seq<Entry>, e: Entry, w: Writes)
    requires forall k | Stored(v, k) :: KeyOf(es, k)
    ensures forall k | Stored(PutAll(v, e.log, w), k) :: KeyOf(es + [e], k)
  {
    var all := es + [e];
    forall k | Stored(PutAll(v, e.log, w), k) ensures KeyOf(all, k) {
      if k == e.log.Key() {
        assert all[|es|] == e;
      } else {
        assert Stored(v, k);
        var i :| 0 <= i < |es| && es[i].log.Key() == k;
        assert all[i] == es[i];
      }
    }
  }

  // ---------------------------------------------------------------- blocks and chains

  lemma {:induction false} Prefixes(es: seq<Entry>, n: nat)
    requires Identified(es) && n <= |es|
    ensures Identified(es[..n])
  {
  }

  lemma {:induction false} LogsLedgered(v: View, es: seq<Entry>, b: Block, n: nat, cfg: Config)
    requires n <= |b.logs| && Ledgered(v, es, cfg) && Identified(es + EntriesOf(b, n)) && RecordLogs(v, b, n, cfg).Ok?
    ensures Ledgered(RecordLogs(v, b, n, cfg).value, es + EntriesOf(b, n), cfg)
  {
    if n == 0 {
      assert es + EntriesOf(b, 0) == es;
    } else {
      var e := Entry(b.logs[n - 1], b.header.time, b.context);
      assert EntriesOf(b, n) == EntriesOf(b, n - 1) + [e];
      assert es + EntriesOf(b, n) == es + EntriesOf(b, n - 1) + [e];
      Prefixes(es + EntriesOf(b, n), |es| + n - 1);
      assert (es + EntriesOf(b, n))[..|es| + n - 1] == es + EntriesOf(b, n - 1);
      LogsLedgered(v, es, b, n - 1, cfg);
      RecordedRows(RecordLogs(v, b, n - 1, cfg).value, es + EntriesOf(b, n - 1), e, cfg);
    }
  }

  lemma {:induction false} StartedLedgered(v: View, es: seq<Entry>, h: Header, cfg: Config)
    requires Ledgered(v, es, cfg)
    ensures Ledgered(Started(v, h), es, cfg)
  {
    var t := Started(v, h);
    forall n | 0 <= n < |es| ensures Rows(t, es[..n], es[n], cfg) {
      assert Rows(v, es[..n], es[n], cfg);
      assert TradeRow(t, es[..n], es[n], cfg) && LaunchRows(t, es[n], cfg);
    }
    forall k | Stored(t, k) ensures KeyOf(es, k) { assert Stored(v, k); }
  }

  /** After any accepted chain every log has exactly the rows its fields say, decided by the logs before
      it, and there are no other rows. */
  lemma {:induction false} ChainLedgered(chain: seq<Block>, cfg: Config)
    requires ViewOf(chain, cfg).Ok? && Identified(Entries(chain))
    ensures Ledgered(ViewOf(chain, cfg).value, Entries(chain), cfg)
    decreases |chain|
  {
    if chain != [] {
      var init, b := chain[..|chain| - 1], chain[|chain| - 1];
      Prefixes(Entries(chain), |Entries(init)|);
      assert Entries(chain)[..|Entries(init)|] == Entries(init);
      ChainLedgered(init, cfg);
      StartedLedgered(ViewOf(init, cfg).value, Entries(init), b.header, cfg);
      LogsLedgered(Started(ViewOf(init, cfg).value, b.header), Entries(init), b, |b.logs|, cfg);
    }
  }

  /** The blocks table holds the headers of the chain, field for field. */
  lemma {:induction false} ChainBlocks(chain: seq<Block>, cfg: Config)
    requires ViewOf(chain, cfg).Ok? && Reorg.Legal(chain)
    ensures var blocks := ViewOf(chain, cfg).value.blocks;
      (forall i | 0 <= i < |chain| ::
         var h := chain[i].header;
         h.hash in blocks && blocks[h.hash].block == h.number && blocks[h.hash].hash == h.hash
         && blocks[h.hash].data.parent == h.parent && blocks[h.hash].data.time == h.time)
      && forall hash | hash in blocks :: exists i | 0 <= i < |chain| :: chain[i].header.hash == hash
  {
    Runs.BlocksListed(chain, cfg);
    Reorg.ChainAnchored(chain, cfg);
    var blocks := ViewOf(chain, cfg).value.blocks;
    forall hash | hash in blocks ensures exists i | 0 <= i < |chain| :: chain[i].header.hash == hash {
      assert Reorg.HasHeader(chain, blocks[hash]);
    }
  }

  /** Every block of an accepted chain pairs its graduations and its activations, and its logs are its own. */
  lemma {:induction false} ChainPaired(chain: seq<Block>, cfg: Config, i: nat)
    requires ViewOf(chain, cfg).Ok? && i < |chain|
    ensures Pairing.ValidGraduations(chain[i].logs, cfg.roots) && Pairing.ValidActivations(chain[i].logs, cfg.roots)
    ensures forall l | l in chain[i].logs :: l.block == chain[i].header.number && l.blockHash == chain[i].header.hash
    decreases |chain|
  {
    var init, b := chain[..|chain| - 1], chain[|chain| - 1];
    if i < |init| {
      ChainPaired(init, cfg, i);
    } else {
      LogsOwned(Started(ViewOf(init, cfg).value, b.header), b, |b.logs|, cfg);
      assert b.logs[..|b.logs|] == b.logs;
    }
  }

  lemma {:induction false} LogsOwned(v: View, b: Block, n: nat, cfg: Config)
    requires n <= |b.logs| && RecordLogs(v, b, n, cfg).Ok?
    ensures forall l | l in b.logs[..n] :: l.block == b.header.number && l.blockHash == b.header.hash
  {
    if n > 0 {
      LogsOwned(v, b, n - 1, cfg);
      assert b.logs[..n] == b.logs[..n - 1] + [b.logs[n - 1]];
    }
  }

  // ---------------------------------------------------------------- what is refused

  /** Why one log is refused, in its own fields and those of the logs before it. */
  ghost predicate Refused(before: seq<Entry>, e: Entry, cfg: Config, error: ApplyError) {
    var l, senders := e.log, e.context.senders;
    match error
    case MissingMetadata => Launches(l, cfg) && NoMetadata(l.payload.token, e.context)
    case WrongDecimals =>
      Launches(l, cfg) && !NoMetadata(l.payload.token, e.context) && e.context.metadata[l.payload.token].decimals != 18
    case InvalidDeltas => l.payload.Swap? && Pooled(before, l.address, cfg) && NoExchange(l)
    case MissingSender =>
      l.payload.Swap? && Pooled(before, l.address, cfg) && !NoExchange(l)
      && (l.tx !in senders || senders[l.tx] == ZERO_ADDRESS)
    case _ => false
  }

  ghost predicate NoMetadata(token: Address, ctx: Context) {
    token in ctx.metadata ==> ctx.metadata[token].name == "" || ctx.metadata[token].symbol == ""
  }

  /** Someone's pool. */
  ghost predicate Pooled(before: seq<Entry>, pool: Address, cfg: Config) {
    exists token :: PoolOf(before, pool, token, cfg)
  }

  ghost predicate NoExchange(l: Log)
    requires l.payload.Swap?
  {
    l.payload.amount0 == 0 || l.payload.amount1 == 0 || (l.payload.amount0 > 0 <==> l.payload.amount1 > 0)
  }

  lemma {:induction false} EffectRefused(before: seq<Entry>, e: Entry, trusted: bool, owner: Option<Address>,
                                         cfg: Config, error: ApplyError)
    requires match owner
             case None => !Pooled(before, e.log.address, cfg)
             case Some(token) => PoolOf(before, e.log.address, token, cfg)
    ensures Effects(e.log, trusted, owner, e.context, cfg) == Err(error) <==> Refused(before, e, cfg, error)
  {
    if owner.Some? {
      assert Pooled(before, e.log.address, cfg);
      if e.log.payload.Swap? {
        Swaps.ReadingMeansExchange(owner.value, e.log.payload.amount0, e.log.payload.amount1);
      }
    }
  }

  /** Recording a log fails for these reasons and no other. */
  lemma {:induction false} RefusedIff(v: View, es: seq<Entry>, e: Entry, cfg: Config, error: ApplyError)
    requires Ledgered(v, es, cfg) && Identified(es)
    ensures RecordLog(v, e.log, e.context, cfg) == Err(error) <==> Refused(es, e, cfg, error)
  {
    LookupsAre(v, es, e, cfg);
    var owner := PoolOwner(v.curves, v.tokens, e.log.address);
    if owner.None? { NoPool(es, e.log.address, cfg); }
    EffectRefused(es, e, TrustedLog(v, e.log, cfg.roots), owner, cfg, error);
  }
}
