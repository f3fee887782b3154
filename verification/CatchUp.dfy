/** Collection and storage together: each batch's scan set is read back from the tables that the
    batches before it filled. On a fixed chain the stored logs are the tracked logs, whatever the
    batch size and address chunking. */
module CatchUp {
  import opened Wrappers
  import opened Chain
  import opened Tables
  import opened CtoProjection
  import opened Views
  import opened Reorg
  import opened Runs
  import opened Discovery
  import opened Batches
  import opened Acceptance
  import opened Origins
  import Pairing
  import Reapply
  import Recovery
  import Sorting
  import Store
  import Swaps

  // ---------------------------------------------------------------- ScanContracts

  /** The UNION of ScanContracts: canonical curves, tokens, pools and treasuries, and for excluded
      tokens the same three addresses read from their launch events. */
  function ScanSet(s: Store.State, excluded: set<Address>): set<Address> {
    (set k | k in s.curves && s.curves[k].canonical :: s.curves[k].data.curve)
    + (set k | k in s.tokens && s.tokens[k].canonical :: s.tokens[k].data.token)
    + (set k | k in s.curves && s.curves[k].canonical :: s.curves[k].data.pool)
    + (set k | k in s.cto.records && s.cto.records[k].canonical && s.cto.records[k].data.Treasury? ::
      s.cto.records[k].data.treasury)
    + (set k | k in s.events && ExcludedLaunch(s, k, excluded) :: s.events[k].data.payload.token)
    + (set k | k in s.events && ExcludedLaunch(s, k, excluded) :: s.events[k].data.payload.curve)
    + (set k | k in s.events && ExcludedLaunch(s, k, excluded) :: s.events[k].data.payload.pool)
  }

  predicate ExcludedLaunch(s: Store.State, k: LogKey, excluded: set<Address>)
    requires k in s.events
  {
    s.events[k].canonical && s.events[k].data.payload.Launch? && s.events[k].data.payload.token in excluded
  }

  function Configured(roots: Roots): seq<Address> {
    [roots.factory, roots.feeManager, roots.registry]
  }

  method ScanContracts(s: Store.State, configured: seq<Address>, excluded: set<Address>) returns (out: seq<Address>)
    ensures forall a :: a in out <==> a in configured || a in ScanSet(s, excluded)
  {
    out := configured;
    var rest := ScanSet(s, excluded);
    while rest != {}
      invariant forall a :: a in out || a in rest <==> a in configured || a in ScanSet(s, excluded)
      decreases |rest|
    {
      var a := Sorting.AnyOf(rest);
      if a !in out { out := out + [a]; }
      rest := rest - {a};
    }
  }

  /** A scan of this database. */
  ghost predicate Scans(known: seq<Address>, db: Store.State, cfg: Config) {
    forall a :: a in known <==> a in Configured(cfg.roots) || a in ScanSet(db, cfg.excluded)
  }

  // ---------------------------------------------------------------- what the applied logs leave behind

  /** The rows a recorded log leaves in the view. */
  ghost predicate Left(v: View, l: Log, w: Writes) {
    (w.event.Some? ==> l.Key() in v.events && v.events[l.Key()] == Fact(l.block, l.blockHash, w.event.value))
    && (w.token.Some? ==> l.Key() in v.tokens && v.tokens[l.Key()].data == w.token.value)
    && (w.curve.Some? ==> l.Key() in v.curves && v.curves[l.Key()].data == w.curve.value)
  }

  lemma {:induction false} LastBlockLeaves(kept: seq<Block>, b: Block, cfg: Config, l: Log) returns (u: View)
    requires Legal(kept + [b]) && ViewOf(kept + [b], cfg).Ok? && Reapply.DistinctKeys(b) && l in b.logs
    ensures EffectsIn(u, l, b.context, cfg).Ok?
    ensures Left(ViewOf(kept + [b], cfg).value, l, EffectsIn(u, l, b.context, cfg).value)
    ensures l.block == b.header.number
  {
    var chain := kept + [b];
    assert chain[..|chain| - 1] == kept && chain[|chain| - 1] == b;
    Reapply.FirstTimeThere(kept, b, cfg);
    var v := Started(ViewOf(kept, cfg).value, b.header);
    var i :| 0 <= i < |b.logs| && b.logs[i] == l;
    Reapply.Persists(v, b, i, |b.logs|, cfg);
    Reapply.LastLogProvenance(v, b, i, cfg);
    u := RecordLogs(v, b, i, cfg).value;
  }

  /** The chain up to block i is what its view shows below the next height. */
  lemma {:induction false} UpTo(chain: seq<Block>, i: nat, cfg: Config)
    requires Legal(chain) && ViewOf(chain, cfg).Ok? && i < |chain|
    ensures Legal(chain[..i] + [chain[i]])
    ensures ViewOf(chain[..i] + [chain[i]], cfg) == Ok(BelowView(ViewOf(chain, cfg).value, chain[i].header.number + 1))
  {
    var n := chain[i].header.number + 1;
    CutSplits(chain, n);
    ViewBelow(chain, cfg, n);
    assert chain[..i + 1] == chain[..i] + [chain[i]];
    assert Cut(chain, n) == i + 1;
    LegalPrefix(chain, i + 1);
  }

  lemma {:induction false} LeftBelow(v: View, from: nat, l: Log, w: Writes)
    requires Left(BelowView(v, from), l, w)
    ensures Left(v, l, w)
  {
  }

  /** Later blocks leave it there. */
  lemma {:induction false} BlockLeaves(chain: seq<Block>, i: nat, cfg: Config, l: Log) returns (u: View)
    requires Legal(chain) && ViewOf(chain, cfg).Ok? && i < |chain| && Reapply.DistinctKeys(chain[i])
      && l in chain[i].logs
    ensures EffectsIn(u, l, chain[i].context, cfg).Ok?
    ensures Left(ViewOf(chain, cfg).value, l, EffectsIn(u, l, chain[i].context, cfg).value)
  {
    UpTo(chain, i, cfg);
    u := LastBlockLeaves(chain[..i], chain[i], cfg, l);
    LeftBelow(ViewOf(chain, cfg).value, chain[i].header.number + 1, l, EffectsIn(u, l, chain[i].context, cfg).value);
  }

  /** A launch leaves its addresses in reach of the next scan, excluded or not. */
  lemma {:induction false} LaunchReachable(s: Store.State, chain: seq<Block>, i: nat, cfg: Config, d: Log)
    requires Indexes(s, chain, cfg) && i < |chain| && Reapply.DistinctKeys(chain[i])
    requires d in chain[i].logs && d.payload.Launch?
    ensures d.payload.token in ScanSet(s, cfg.excluded) && d.payload.curve in ScanSet(s, cfg.excluded)
    ensures d.payload.pool in ScanSet(s, cfg.excluded)
  {
    var u := BlockLeaves(chain, i, cfg, d);
    LaunchWrites(u, d, chain[i].context, cfg);
    if d.payload.token in cfg.excluded {
      assert d.Key() in Canonical(s.events);
      assert ExcludedLaunch(s, d.Key(), cfg.excluded);
    } else {
      assert d.Key() in Canonical(s.tokens) && d.Key() in Canonical(s.curves);
    }
  }

  lemma {:induction false} LaunchWrites(u: View, d: Log, ctx: Context, cfg: Config)
    requires d.payload.Launch? && EffectsIn(u, d, ctx, cfg).Ok?
    ensures var w := EffectsIn(u, d, ctx, cfg).value;
      w.event == Some(Event(d.txIndex, d.address, d.payload))
      && (d.payload.token !in cfg.excluded ==>
            w.token.Some? && w.token.value.token == d.payload.token && w.curve.Some?
            && w.curve.value.curve == d.payload.curve
            && w.curve.value.pool == d.payload.pool)
  {
  }

  /** A deployment's treasury is read back from the rebuilt cto_treasuries. */
  lemma {:induction false} DeploymentReachable(s: Store.State, chain: seq<Block>, i: nat, cfg: Config, d: Log)
    requires Indexes(s, chain, cfg) && CtoRebuilt(s) && cfg.roots.Configured()
    requires i < |chain| && Reapply.DistinctKeys(chain[i])
    requires d in chain[i].logs && Deployment(d, cfg.roots)
    ensures d.payload.event.treasury in ScanSet(s, cfg.excluded)
  {
    var u := BlockLeaves(chain, i, cfg, d);
    DeploymentWrites(u, d, chain[i].context, cfg);
    var v, k := Store.Seen(s), d.Key();
    ChainAnchored(chain, cfg);
    assert From(chain, k, d.block, d.blockHash);
    BlocksListed(chain, cfg);
    var e := CtoLog(d.address, Mark(d.block, d.blockHash, k.tx, k.index), v.blocks[d.blockHash].data.time,
      d.payload.event);
    CtoHistoryMembers(v, e);
    var t :| CtoFrom(s, t);
    RecordListed(s, v, t, e);
  }

  lemma {:induction false} RecordListed(s: Store.State, v: View, t: CtoTables, e: CtoLog)
    requires s.cto == Replay(Cleared(t), CtoHistory(v), CtoHistory(v))
    requires e in CtoHistory(v) && e.event.TreasuryDeployed?
    ensures exists k :: k in s.cto.records && s.cto.records[k].canonical && s.cto.records[k].data.Treasury?
                        && s.cto.records[k].data.treasury == e.event.treasury
  {
    var events, k := CtoHistory(v), e.mark.Key();
    RecordsAreTheEvents(Cleared(t), events, events);
    var rs := Canonical(s.cto.records);
    var j :| 0 <= j < |events| && events[j] == e;
    assert k in rs;
    var i :| 0 <= i < |events| && events[i].mark.Key() == k && RecordOf(events[i]).Some?
      && rs[k] == Fact(events[i].mark.block, events[i].mark.hash, RecordOf(events[i]).value);
    CtoHistoryMembers(v, events[i]);
    CtoHistoryMembers(v, e);
    assert s.cto.records[k].data == RecordOf(e).value;
  }

  lemma {:induction false} DeploymentWrites(u: View, d: Log, ctx: Context, cfg: Config)
    requires Deployment(d, cfg.roots) && cfg.roots.Configured() && EffectsIn(u, d, ctx, cfg).Ok?
    ensures EffectsIn(u, d, ctx, cfg).value.event == Some(Event(d.txIndex, d.address, d.payload))
  {
  }

  // ---------------------------------------------------------------- covering the past

  /** One chain, fixed for the whole run: linked headers and the logs of their blocks. */
  datatype Source = Source(node: Recovery.Node, chain: seq<Log>, context: Context)

  ghost predicate Fixed(w: Source) {
    Recovery.Linked(w.node) && ChainLogs(w.chain)
    && (forall i, j | 0 <= i < j < |w.node| :: w.node[i].hash != w.node[j].hash)
    && (forall l | l in w.chain :: 0 < l.block < |w.node| && l.blockHash == w.node[l.block].hash)
    && (forall a, b | a in w.chain && b in w.chain && a.Key() == b.Key() :: a == b)
  }

  ghost predicate BlockOf(b: Block, w: Source) {
    b.header.number < |w.node| && b.header == w.node[b.header.number]
    && (forall l | l in b.logs :: l in w.chain && l.block == b.header.number) && Reapply.DistinctKeys(b)
  }

  ghost predicate AllOf(blocks: seq<Block>, w: Source, last: nat) {
    forall i | 0 <= i < |blocks| :: BlockOf(blocks[i], w) && 0 < blocks[i].header.number <= last
  }

  /** The database indexes blocks of this chain up to a height. */
  ghost predicate Holding(db: Store.State, blocks: seq<Block>, w: Source, last: nat, cfg: Config) {
    Faithful(Index(db, blocks), cfg) && AllOf(blocks, w, last)
  }

  ghost predicate CaughtUp(blocks: seq<Block>, w: Source, last: nat, roots: Roots) {
    forall l | l in w.chain && TrackedIn(w.chain, 1, last, roots, l) :: InBlocks(blocks, l)
  }

  /** The database holds blocks of this chain, and every tracked log up to a height is in one of them. */
  ghost predicate Tracking(db: Store.State, blocks: seq<Block>, w: Source, last: nat, cfg: Config) {
    Holding(db, blocks, w, last, cfg) && CaughtUp(blocks, w, last, cfg.roots)
  }

  /** After catching up to a height, the next scan covers everything below it. */
  lemma {:induction false} ScanCovers(db: Store.State, blocks: seq<Block>, w: Source, last: nat, cfg: Config,
                                      known: seq<Address>)
    requires Fixed(w) && Holding(db, blocks, w, last, cfg) && CaughtUp(blocks, w, last, cfg.roots)
      && cfg.roots.Configured()
    requires Scans(known, db, cfg)
    ensures Covers(known, w.chain, last + 1, cfg.roots)
  {
    forall d | d in w.chain && d.block < last + 1 && FactoryLaunch(d, cfg.roots)
      ensures d.payload.token in known && d.payload.curve in known && d.payload.pool in known
    {
      var i := HeldAt(blocks, w, last, cfg, d);
      LaunchReachable(db, blocks, i, cfg, d);
    }
    forall d | d in w.chain && d.block < last + 1 && Deployment(d, cfg.roots)
      ensures d.payload.event.treasury in known
    {
      var i := HeldAt(blocks, w, last, cfg, d);
      NotEmpty(db, blocks, cfg, i);
      DeploymentReachable(db, blocks, i, cfg, d);
    }
  }

  // ---------------------------------------------------------------- knowing nothing else

  /** Only the factory's launches are stored. */
  ghost predicate OnlyFactory(blocks: seq<Block>, roots: Roots) {
    forall l | InBlocks(blocks, l) && l.payload.Launch? :: l.address == roots.factory
  }

  lemma {:induction false} HeldLogs(blocks: seq<Block>, w: Source, last: nat)
    requires AllOf(blocks, w, last)
    ensures forall l | InBlocks(blocks, l) :: l in w.chain
  {
  }

  lemma {:induction false} LaunchWatched(blocks: seq<Block>, w: Source, roots: Roots, l: Log)
    requires OnlyFactory(blocks, roots) && InBlocks(blocks, l) && l.payload.Launch? && l in w.chain
    ensures Watched(w.chain, l.payload.token, roots) && Watched(w.chain, l.payload.curve, roots)
    ensures Watched(w.chain, l.payload.pool, roots)
  {
    assert FactoryLaunch(l, roots);
  }

  lemma {:induction false} TokenWatched(blocks: seq<Block>, w: Source, roots: Roots, a: Address)
    requires OnlyFactory(blocks, roots) && TokenLogged(blocks, a) && forall l | InBlocks(blocks, l) :: l in w.chain
    ensures Watched(w.chain, a, roots)
  {
    var l :| InBlocks(blocks, l) && l.payload.Launch? && l.payload.token == a;
    LaunchWatched(blocks, w, roots, l);
  }

  lemma {:induction false} CurveWatched(blocks: seq<Block>, w: Source, roots: Roots, curve: Address, pool: Address)
    requires OnlyFactory(blocks, roots) && CurveLogged(blocks, curve, pool) && forall l | InBlocks(blocks, l) ::
      l in w.chain
    ensures Watched(w.chain, curve, roots) && Watched(w.chain, pool, roots)
  {
    var l :| InBlocks(blocks, l) && l.payload.Launch? && l.payload.curve == curve && l.payload.pool == pool;
    LaunchWatched(blocks, w, roots, l);
  }

  lemma {:induction false} EventWatched(blocks: seq<Block>, w: Source, roots: Roots, e: Event)
    requires OnlyFactory(blocks, roots) && EventLogged(blocks, e) && forall l | InBlocks(blocks, l) :: l in w.chain
    ensures e.payload.Launch? ==> Watched(w.chain, e.payload.token, roots) && Watched(w.chain, e.payload.curve, roots)
                                  && Watched(w.chain, e.payload.pool, roots)
    ensures forall t | Deploys(e, t, roots) :: Watched(w.chain, t, roots)
  {
    var l :| InBlocks(blocks, l) && l.address == e.address && l.payload == e.payload;
    if l.payload.Launch? { LaunchWatched(blocks, w, roots, l); }
    forall t | Deploys(e, t, roots) ensures Watched(w.chain, t, roots) { assert Deployment(l, roots); }
  }

  /** The stored rows come from these blocks of this chain, launched by the factory. */
  ghost predicate RowsOrderly(db: Store.State, blocks: seq<Block>, w: Source, roots: Roots) {
    RowsLogged(Store.Seen(db), blocks) && Reorg.Backed(db, roots) && OnlyFactory(blocks, roots)
    && forall l | InBlocks(blocks, l) :: l in w.chain
  }

  lemma {:induction false} HeldRows(db: Store.State, blocks: seq<Block>, w: Source, last: nat, cfg: Config)
    requires Holding(db, blocks, w, last, cfg) && OnlyFactory(blocks, cfg.roots)
    ensures RowsOrderly(db, blocks, w, cfg.roots)
  {
    HeldLogs(blocks, w, last);
    ChainLogged(blocks, cfg);
  }

  lemma {:induction false} CurveRowWatched(db: Store.State, blocks: seq<Block>, w: Source, roots: Roots, k: LogKey)
    requires RowsOrderly(db, blocks, w, roots) && k in db.curves && db.curves[k].canonical
    ensures Watched(w.chain, db.curves[k].data.curve, roots) && Watched(w.chain, db.curves[k].data.pool, roots)
  {
    assert k in Store.Seen(db).curves;
    CurveWatched(blocks, w, roots, db.curves[k].data.curve, db.curves[k].data.pool);
  }

  lemma {:induction false} TokenRowWatched(db: Store.State, blocks: seq<Block>, w: Source, roots: Roots, k: LogKey)
    requires RowsOrderly(db, blocks, w, roots) && k in db.tokens && db.tokens[k].canonical
    ensures Watched(w.chain, db.tokens[k].data.token, roots)
  {
    assert k in Store.Seen(db).tokens;
    TokenWatched(blocks, w, roots, db.tokens[k].data.token);
  }

  lemma {:induction false} TreasuryRowWatched(db: Store.State, blocks: seq<Block>, w: Source, roots: Roots, k: LogKey)
    requires RowsOrderly(db, blocks, w, roots)
    requires k in db.cto.records && db.cto.records[k].canonical && db.cto.records[k].data.Treasury?
    ensures Watched(w.chain, db.cto.records[k].data.treasury, roots)
  {
    assert k in Store.Seen(db).events;
    EventWatched(blocks, w, roots, db.events[k].data);
  }

  lemma {:induction false} EventRowWatched(db: Store.State, blocks: seq<Block>, w: Source, roots: Roots, k: LogKey,
                                           excluded: set<Address>)
    requires RowsOrderly(db, blocks, w, roots) && k in db.events && ExcludedLaunch(db, k, excluded)
    ensures var p := db.events[k].data.payload;
      Watched(w.chain, p.token, roots) && Watched(w.chain, p.curve, roots) && Watched(w.chain, p.pool, roots)
  {
    assert k in Store.Seen(db).events;
    EventWatched(blocks, w, roots, db.events[k].data);
  }

  ghost predicate TablesWatched(db: Store.State, w: Source, roots: Roots) {
    (forall k | k in db.curves && db.curves[k].canonical ::
       Watched(w.chain, db.curves[k].data.curve, roots) && Watched(w.chain, db.curves[k].data.pool, roots))
    && (forall k | k in db.tokens && db.tokens[k].canonical :: Watched(w.chain, db.tokens[k].data.token, roots))
    && (forall k | k in db.cto.records && db.cto.records[k].canonical && db.cto.records[k].data.Treasury? ::
          Watched(w.chain, db.cto.records[k].data.treasury, roots))
  }

  lemma {:induction false} TableRowsWatched(db: Store.State, blocks: seq<Block>, w: Source, roots: Roots)
    requires RowsOrderly(db, blocks, w, roots)
    ensures TablesWatched(db, w, roots)
  {
    forall k | k in db.curves && db.curves[k].canonical
      ensures Watched(w.chain, db.curves[k].data.curve, roots) && Watched(w.chain, db.curves[k].data.pool, roots)
    {
      CurveRowWatched(db, blocks, w, roots, k);
    }
    forall k | k in db.tokens && db.tokens[k].canonical ensures Watched(w.chain, db.tokens[k].data.token, roots) {
      TokenRowWatched(db, blocks, w, roots, k);
    }
    forall k | k in db.cto.records && db.cto.records[k].canonical && db.cto.records[k].data.Treasury?
      ensures Watched(w.chain, db.cto.records[k].data.treasury, roots)
    {
      TreasuryRowWatched(db, blocks, w, roots, k);
    }
  }

  ghost predicate LaunchesWatched(db: Store.State, w: Source, roots: Roots, excluded: set<Address>) {
    forall k | k in db.events && ExcludedLaunch(db, k, excluded) ::
      var p := db.events[k].data.payload;
      Watched(w.chain, p.token, roots) && Watched(w.chain, p.curve, roots) && Watched(w.chain, p.pool, roots)
  }

  lemma {:induction false} LaunchRowsWatched(db: Store.State, blocks: seq<Block>, w: Source, roots: Roots,
                                             excluded: set<Address>)
    requires RowsOrderly(db, blocks, w, roots)
    ensures LaunchesWatched(db, w, roots, excluded)
  {
    forall k | k in db.events && ExcludedLaunch(db, k, excluded)
      ensures var p := db.events[k].data.payload;
        Watched(w.chain, p.token, roots) && Watched(w.chain, p.curve, roots) && Watched(w.chain, p.pool, roots)
    {
      EventRowWatched(db, blocks, w, roots, k, excluded);
    }
  }

  lemma {:induction false} RowsWatched(db: Store.State, w: Source, roots: Roots, excluded: set<Address>)
    requires TablesWatched(db, w, roots) && LaunchesWatched(db, w, roots, excluded)
    ensures forall a | a in ScanSet(db, excluded) :: Watched(w.chain, a, roots)
  {
  }

  lemma {:induction false} KnownWatched(db: Store.State, blocks: seq<Block>, w: Source, cfg: Config,
                                        known: seq<Address>)
    requires RowsOrderly(db, blocks, w, cfg.roots) && Scans(known, db, cfg)
    ensures forall a | a in known :: Watched(w.chain, a, cfg.roots)
  {
    TableRowsWatched(db, blocks, w, cfg.roots);
    LaunchRowsWatched(db, blocks, w, cfg.roots, cfg.excluded);
    RowsWatched(db, w, cfg.roots, cfg.excluded);
  }

  /** After catching up the next scan knows what was launched or deployed before, and nothing else. */
  lemma {:induction false} ScanKnows(db: Store.State, blocks: seq<Block>, w: Source, last: nat, cfg: Config,
                                     known: seq<Address>)
    requires Fixed(w) && Holding(db, blocks, w, last, cfg) && CaughtUp(blocks, w, last, cfg.roots)
      && cfg.roots.Configured()
    requires Scans(known, db, cfg) && OnlyFactory(blocks, cfg.roots)
    ensures Knows(known, w.chain, last + 1, cfg.roots)
  {
    ScanCovers(db, blocks, w, last, cfg, known);
    HeldRows(db, blocks, w, last, cfg);
    KnownWatched(db, blocks, w, cfg, known);
  }

  /** A batch stores only the factory's launches. */
  lemma {:induction false} BatchFactory(blocks: seq<Block>, grown: seq<Block>, w: Source, known: seq<Address>,
                                        from: nat, end: nat, roots: Roots)
    requires Knows(known, w.chain, from, roots) && Behaves(w.chain, roots) && OnlyFactory(blocks, roots)
    requires forall l | InBlocks(grown, l) :: InBlocks(blocks, l) || l in Batch(w.chain, known, from, end, roots)
    ensures OnlyFactory(grown, roots)
  {
    forall l | l in Batch(w.chain, known, from, end, roots) && l.payload.Launch? ensures l.address == roots.factory {
      LaunchScanned(w.chain, known, from, end, roots, l);
      assert Watched(w.chain, l.address, roots);
    }
  }

  /** No follow-up query brings a launch. */
  lemma {:induction false} LaunchScanned(chain: seq<Log>, known: seq<Address>, from: nat, end: nat, roots: Roots,
                                         l: Log)
    requires l in Batch(chain, known, from, end, roots) && l.payload.Launch?
    ensures l in KnownLogs(chain, known, from, end)
  {
  }

  /** So a factory pool's swaps are collected from the first batch after its launch's. */
  lemma {:induction false} PoolSwapCollected(db: Store.State, blocks: seq<Block>, w: Source, last: nat, end: nat,
                                             cfg: Config,
                                             known: seq<Address>, d: Log, l: Log)
    requires Fixed(w) && Holding(db, blocks, w, last, cfg) && CaughtUp(blocks, w, last, cfg.roots)
      && cfg.roots.Configured()
    requires Scans(known, db, cfg)
    requires d in w.chain && FactoryLaunch(d, cfg.roots) && d.block <= last
    requires l in w.chain && last < l.block <= end && l.payload.Swap? && l.address == d.payload.pool
    ensures l in Batch(w.chain, known, last + 1, end, cfg.roots)
  {
    ScanCovers(db, blocks, w, last, cfg, known);
    SwapCollectedIff(w.chain, known, last + 1, end, cfg.roots, l);
  }

  lemma {:induction false} HeldAt(blocks: seq<Block>, w: Source, last: nat, cfg: Config, d: Log) returns (i: nat)
    requires d in w.chain && 0 < d.block <= last && AtRoot(d, cfg.roots) && CaughtUp(blocks, w, last, cfg.roots)
    ensures i < |blocks| && d in blocks[i].logs
  {
    assert TrackedIn(w.chain, 1, last, cfg.roots, d);
    assert InBlocks(blocks, d);
    i :| 0 <= i < |blocks| && d in blocks[i].logs;
  }

  lemma {:induction false} NotEmpty(db: Store.State, blocks: seq<Block>, cfg: Config, i: nat)
    requires Faithful(Index(db, blocks), cfg) && i < |blocks|
    ensures CtoRebuilt(db)
  {
    BlocksListed(blocks, cfg);
    assert blocks[i].header.hash in Store.Seen(db).blocks;
  }

  // ---------------------------------------------------------------- the catch-up loop

  lemma {:induction false} BlockOfDisjoint(a: Block, b: Block, w: Source)
    requires Fixed(w) && BlockOf(a, w) && BlockOf(b, w) && a.header.number < b.header.number
    ensures Disjoint(a, b) && a.header.hash != b.header.hash
  {
    forall k | HasKey(a, k) ensures !HasKey(b, k) {
      var l :| l in a.logs && l.Key() == k;
      forall m | m in b.logs ensures m.Key() != k { assert m.block != l.block; }
    }
  }

  /** A higher block of the same chain extends what is held. */
  lemma {:induction false} Higher(blocks: seq<Block>, b: Block, w: Source)
    requires Fixed(w) && Legal(blocks) && BlockOf(b, w)
    requires forall i | 0 <= i < |blocks| :: BlockOf(blocks[i], w) && blocks[i].header.number < b.header.number
    ensures Extends(blocks, b) && Surviving(blocks, ApplyStep(b)) == blocks + [b]
  {
    forall i | 0 <= i < |blocks| ensures Disjoint(blocks[i], b) && blocks[i].header.hash != b.header.hash {
      BlockOfDisjoint(blocks[i], b, w);
    }
    ExtendsAbove(blocks, b);
  }

  lemma {:induction false} FaithfulMore(db: Store.State, blocks: seq<Block>, b: Block, t: Store.State, cfg: Config)
    requires Faithful(Index(db, blocks), cfg) && Extends(blocks, b) && Store.Applied(db, b, cfg) == Ok(t)
    ensures Faithful(Index(t, Surviving(blocks, ApplyStep(b))), cfg)
  {
    AppliedFaithful(Index(db, blocks), b, cfg);
  }

  lemma {:induction false} AllOfMore(blocks: seq<Block>, b: Block, w: Source, last: nat)
    requires AllOf(blocks, w, last) && BlockOf(b, w) && last < b.header.number
    ensures AllOf(blocks + [b], w, b.header.number)
  {
  }

  /** The logs of one height, as Run groups them. */
  lemma {:induction false} SliceIsBlock(logs: seq<Log>, n: nat, w: Source)
    requires Fixed(w) && Discovery.Ascending(logs) && (forall l | l in logs :: l in w.chain) && n < |w.node|
    ensures BlockOf(Block(w.node[n], Pairing.Slice(logs, n), w.context), w)
  {
    var b := Block(w.node[n], Pairing.Slice(logs, n), w.context);
    forall l | l in b.logs ensures l in w.chain && l.block == n { Pairing.SliceMembers(logs, n, l); }
    SliceAscending(logs, n);
    forall i, j | 0 <= i < j < |b.logs| ensures b.logs[i].Key() != b.logs[j].Key() {
      assert b.logs[i] in b.logs && b.logs[j] in b.logs && LogLess(b.logs[i], b.logs[j]);
    }
  }

  lemma {:induction false} SliceAscending(logs: seq<Log>, n: nat)
    requires Discovery.Ascending(logs)
    ensures Discovery.Ascending(Pairing.Slice(logs, n))
    decreases |logs|
  {
    if logs != [] {
      var init, last := logs[..|logs| - 1], logs[|logs| - 1];
      SliceAscending(init, n);
      forall l | l in Pairing.Slice(init, n) ensures LogLess(l, last) {
        Pairing.SliceMembers(init, n, l);
        var i :| 0 <= i < |init| && init[i] == l;
      }
    }
  }

  datatype CatchUpError = Scanning(scan: ScanError) | Applying(error: ApplyError) | NotFound

  /** The block that Run hands over for a height: its header and its slice of the collected logs. */
  function SliceBlock(w: Source, logs: seq<Log>, n: nat): Block
    requires n < |w.node|
  {
    Block(w.node[n], Pairing.Slice(logs, n), w.context)
  }

  /** The store refuses that block in this state. */
  ghost predicate RefusesAt(db: Store.State, w: Source, logs: seq<Log>, n: nat, e: ApplyError, cfg: Config) {
    n < |w.node| && Store.Applied(db, SliceBlock(w, logs, n), cfg) == Err(e)
  }

  ghost predicate Refuses(db: Store.State, w: Source, logs: seq<Log>, at: nat, end: nat, e: ApplyError, cfg: Config) {
    exists n: nat :: at < n <= end && RefusesAt(db, w, logs, n, e, cfg)
  }

  /** Why the storage half stops. */
  ghost predicate Unstored(e: CatchUpError, db: Store.State, w: Source, logs: seq<Log>, at: nat, end: nat,
                           cfg: Config) {
    match e
    case NotFound => end >= |w.node|
    case Applying(refusal) => Refuses(db, w, logs, at, end, refusal, cfg)
    case Scanning(_) => false
  }

  lemma {:induction false} UnstoredAt(db: Store.State, w: Source, logs: seq<Log>, at: nat, end: nat, n: nat,
                                      e: ApplyError, cfg: Config)
    requires at < n <= end && RefusesAt(db, w, logs, n, e, cfg)
    ensures Unstored(Applying(e), db, w, logs, at, end, cfg)
  {
  }

  /** What passed the batch's pairing check passes it again in every block's slice. */
  lemma {:induction false} NeverUnpaired(db: Store.State, w: Source, logs: seq<Log>, at: nat, end: nat, e: ApplyError,
                                         cfg: Config)
    requires Pairing.ValidGraduations(logs, cfg.roots) && Refuses(db, w, logs, at, end, e, cfg)
    ensures e != InvalidGraduationPairs
  {
    var n: nat :| at < n <= end && RefusesAt(db, w, logs, n, e, cfg);
    SlicePaired(logs, n, cfg.roots);
    PairedAccepted(db, SliceBlock(w, logs, n), cfg);
  }

  lemma {:induction false} SlicePaired(logs: seq<Log>, n: nat, roots: Roots)
    requires Pairing.ValidGraduations(logs, roots)
    ensures Pairing.ValidGraduations(Pairing.Slice(logs, n), roots)
  {
    Pairing.BatchIffSlices(logs, roots);
    assert Pairing.ValidGraduationsAt(logs, n, roots);
  }

  lemma {:induction false} PairedAccepted(db: Store.State, b: Block, cfg: Config)
    requires Pairing.ValidGraduations(b.logs, cfg.roots)
    ensures Store.Applied(db, b, cfg) != Err(InvalidGraduationPairs)
  {
    LogsErrors(Store.BlockOpened(db, b.header), b, |b.logs|, cfg);
  }

  lemma {:induction false} LogsErrors(db: Store.State, b: Block, n: nat, cfg: Config)
    requires n <= |b.logs|
    ensures Store.LogsInserted(db, b, n, cfg) != Err(InvalidGraduationPairs)
  {
    if n > 0 {
      LogsErrors(db, b, n - 1, cfg);
    }
  }

  /** Apply one block above everything held. */
  method StoreBlock(store: Store.Store, w: Source, b: Block, ghost last: nat, ghost blocks: seq<Block>)
    returns (r: Result<(), ApplyError>)
    requires Fixed(w) && Holding(store.db, blocks, w, last, store.cfg) && BlockOf(b, w) && last < b.header.number
    modifies store
    ensures r.Ok? ==> Holding(store.db, blocks + [b], w, b.header.number, store.cfg)
    ensures r.Err? ==> store.db == old(store.db) && Store.Applied(store.db, b, store.cfg) == Err(r.error)
  {
    Higher(blocks, b, w);
    AllOfMore(blocks, b, w, last);
    ghost var before := store.db;
    r := store.Apply(b);
    if r.Ok? { FaithfulMore(before, blocks, b, store.db, store.cfg); }
  }

  /** The logs stored so far: what was held and the batch's logs below a height. */
  ghost predicate StoredBelow(grown: seq<Block>, blocks: seq<Block>, logs: seq<Log>, n: nat) {
    forall l :: InBlocks(grown, l) <==> InBlocks(blocks, l) || (l in logs && l.block < n)
  }

  lemma {:induction false} StoredOn(grown: seq<Block>, blocks: seq<Block>, logs: seq<Log>, n: nat, slice: seq<Log>,
                                    b: Block)
    requires StoredBelow(grown, blocks, logs, n) && slice == Pairing.Slice(logs, n) && b.logs == slice
    ensures StoredBelow(grown + [b], blocks, logs, n + 1)
  {
    InBlocksGrows(grown, b);
    forall l ensures l in slice <==> l in logs && l.block == n { Pairing.SliceMembers(logs, n, l); }
  }

  lemma {:induction false} NothingAt(grown: seq<Block>, blocks: seq<Block>, logs: seq<Log>, n: nat)
    requires StoredBelow(grown, blocks, logs, n) && Pairing.Slice(logs, n) == []
    ensures StoredBelow(grown, blocks, logs, n + 1)
  {
    forall l | l in logs ensures l.block != n { Pairing.SliceMembers(logs, n, l); }
  }

  /** One height of a batch. */
  method ApplyNumber(store: Store.Store, w: Source, logs: seq<Log>, n: nat, ghost last: nat, ghost blocks: seq<Block>)
    returns (r: Result<(), ApplyError>)
    requires Fixed(w) && Holding(store.db, blocks, w, last, store.cfg) && last < n < |w.node|
    requires Discovery.Ascending(logs) && forall l | l in logs :: l in w.chain
    modifies store
    ensures r.Ok? ==> Holding(store.db, blocks + [SliceBlock(w, logs, n)], w, n, store.cfg)
    ensures r.Err? ==> store.db == old(store.db) && RefusesAt(store.db, w, logs, n, r.error, store.cfg)
  {
    SliceIsBlock(logs, n, w);
    r := StoreBlock(store, w, SliceBlock(w, logs, n), last, blocks);
  }

  /** What is held with the batch's logs up to a height. */
  ghost predicate StoredThrough(grown: seq<Block>, blocks: seq<Block>, logs: seq<Log>, n: nat) {
    forall l :: InBlocks(grown, l) <==> InBlocks(blocks, l) || (l in logs && l.block <= n)
  }

  lemma {:induction false} StoppedAt(grown: seq<Block>, blocks: seq<Block>, logs: seq<Log>, w: Source, height: nat,
                                     n: nat)
    requires StoredBelow(grown, blocks, logs, n) && AllOf(grown, w, height) && AllOf(blocks, w, height) && height < n
    ensures StoredThrough(grown, blocks, logs, height)
  {
    HeldHeights(grown, w, height);
    HeldHeights(blocks, w, height);
  }

  lemma {:induction false} HeldHeights(blocks: seq<Block>, w: Source, last: nat)
    requires AllOf(blocks, w, last)
    ensures forall l | InBlocks(blocks, l) :: l.block <= last
  {
  }

  /** The storage half of a batch: its first, last and event-bearing blocks. Stopped, the blocks up to the
      last one it stored are complete. */
  method ApplyNumbers(store: Store.Store, w: Source, logs: seq<Log>, last: nat, end: nat, ghost blocks: seq<Block>)
    returns (r: Result<(), CatchUpError>, ghost grown: seq<Block>, reached: nat)
    requires Fixed(w) && Holding(store.db, blocks, w, last, store.cfg) && last < end
    requires Discovery.Ascending(logs) && forall l | l in logs :: l in w.chain && last < l.block <= end
    modifies store
    ensures Holding(store.db, grown, w, reached, store.cfg) && last <= reached <= end && (r.Ok? ==> reached == end)
    ensures StoredThrough(grown, blocks, logs, reached) && (reached == last ==> grown == blocks)
    ensures r.Err? ==> Unstored(r.error, store.db, w, logs, last, end, store.cfg)
  {
    grown := blocks;
    reached := last;
    for n := last + 1 to end + 1
      invariant StoredBelow(grown, blocks, logs, n)
      invariant last <= reached < n && Holding(store.db, grown, w, reached, store.cfg)
      invariant (n == end + 1 ==> reached == end) && (reached == last ==> grown == blocks)
    {
      var slice := Pairing.Slice(logs, n);
      if n == last + 1 || n == end || slice != [] {
        if n >= |w.node| {
          StoppedAt(grown, blocks, logs, w, reached, n);
          return Err(NotFound), grown, reached;
        }
        StoredOn(grown, blocks, logs, n, slice, SliceBlock(w, logs, n));
        var applied := ApplyNumber(store, w, logs, n, reached, grown);
        if applied.Err? {
          StoppedAt(grown, blocks, logs, w, reached, n);
          UnstoredAt(store.db, w, logs, last, end, n, applied.error, store.cfg);
          return Err(Applying(applied.error)), grown, reached;
        }
        grown := grown + [SliceBlock(w, logs, n)];
        reached := n;
      } else {
        NothingAt(grown, blocks, logs, n);
      }
    }
    return Ok(()), grown, reached;
  }

  lemma {:induction false} CatchesUp(blocks: seq<Block>, grown: seq<Block>, w: Source, known: seq<Address>,
                                     logs: seq<Log>, last: nat, end: nat,
                                     reached: nat, roots: Roots)
    requires CaughtUp(blocks, w, last, roots) && Covers(known, w.chain, last + 1, roots)
    requires last <= reached <= end && StoredThrough(grown, blocks, logs, reached)
      && logs == Batch(w.chain, known, last + 1, end, roots)
    ensures CaughtUp(grown, w, reached, roots)
  {
    forall l | l in w.chain && TrackedIn(w.chain, 1, reached, roots, l) ensures InBlocks(grown, l) {
      if l.block > last {
        TrackedCollected(w.chain, known, last + 1, end, roots, l);
        assert l in logs;
      } else {
        assert TrackedIn(w.chain, 1, last, roots, l);
        assert InBlocks(blocks, l);
      }
    }
  }

  /** The store refuses a block of the batch that this scan collects. */
  ghost predicate ScanRefused(known: seq<Address>, before: Store.State, db: Store.State, w: Source, at: nat, end: nat,
                              e: ApplyError, cfg: Config) {
    Scans(known, before, cfg) && Refuses(db, w, Batch(w.chain, known, at + 1, end, cfg.roots), at, end, e, cfg)
  }

  /** Why a batch stops, scanned from one state and stopped in another: it cannot be collected, the node
      lacks its last block, or the store refuses one of its blocks, never for the graduation pairs. */
  ghost predicate Blocked(e: CatchUpError, before: Store.State, db: Store.State, w: Source, at: nat, end: nat,
                          genuine: Log -> bool, cfg: Config) {
    match e
    case NotFound => end >= |w.node|
    case Applying(refusal) =>
      refusal != InvalidGraduationPairs && exists known :: ScanRefused(known, before, db, w, at, end, refusal, cfg)
    case Scanning(scan) => exists known ::
      Scans(known, before, cfg) && Hindered(scan, w.chain, known, at + 1, end, cfg.roots, genuine)
  }

  ghost predicate Stuck(e: CatchUpError, db: Store.State, w: Source, last: nat, target: nat, genuine: Log -> bool,
                        cfg: Config) {
    exists before, at: nat, end: nat :: last <= at < end <= target && Blocked(e, before, db, w, at, end, genuine, cfg)
  }

  lemma {:induction false} StuckAt(e: CatchUpError, before: Store.State, db: Store.State, w: Source, last: nat,
                                   target: nat,
                                   at: nat, end: nat, genuine: Log -> bool, cfg: Config)
    requires last <= at < end <= target && Blocked(e, before, db, w, at, end, genuine, cfg)
    ensures Stuck(e, db, w, last, target, genuine, cfg)
  {
  }

  /** Watched contracts behave, and what is stored was launched by the factory. */
  ghost predicate Orderly(w: Source, blocks: seq<Block>, roots: Roots) {
    Behaves(w.chain, roots) && OnlyFactory(blocks, roots)
  }

  ghost predicate FineRange(w: Source, at: nat, end: nat, roots: Roots, genuine: Log -> bool) {
    Fine(TrackedLogs(w.chain, at + 1, end, roots), roots, genuine)
  }

  /** A batch that cannot be collected has tracked logs that do not pass, or too many graduations. */
  lemma {:induction false} HinderedUnfine(db: Store.State, blocks: seq<Block>, w: Source, at: nat, end: nat,
                                          cfg: Config, known: seq<Address>,
                                          e: ScanError, genuine: Log -> bool)
    requires Fixed(w) && Holding(db, blocks, w, at, cfg) && CaughtUp(blocks, w, at, cfg.roots) && cfg.roots.Configured()
    requires Scans(known, db, cfg) && Orderly(w, blocks, cfg.roots)
      && Hindered(e, w.chain, known, at + 1, end, cfg.roots, genuine)
    ensures e.TooManyGraduations? || !FineRange(w, at, end, cfg.roots, genuine)
  {
    ScanKnows(db, blocks, w, at, cfg, known);
    SoundIff(w.chain, known, at + 1, end, cfg.roots, genuine);
    HinderedUnsound(e, w.chain, known, at + 1, end, cfg.roots, genuine);
  }

  lemma {:induction false} CollectedFine(db: Store.State, blocks: seq<Block>, w: Source, at: nat, end: nat, cfg: Config,
                                         known: seq<Address>,
                                         genuine: Log -> bool)
    requires Fixed(w) && Holding(db, blocks, w, at, cfg) && CaughtUp(blocks, w, at, cfg.roots) && cfg.roots.Configured()
    requires Scans(known, db, cfg) && Orderly(w, blocks, cfg.roots)
      && Batches.Sound(w.chain, known, at + 1, end, cfg.roots, genuine)
    ensures FineRange(w, at, end, cfg.roots, genuine) && Knows(known, w.chain, at + 1, cfg.roots)
  {
    ScanKnows(db, blocks, w, at, cfg, known);
    SoundIff(w.chain, known, at + 1, end, cfg.roots, genuine);
  }

  lemma {:induction false} OrderlyGrows(before: Store.State, blocks: seq<Block>, grown: seq<Block>, w: Source,
                                        known: seq<Address>,
                                        at: nat, end: nat, reached: nat, cfg: Config, genuine: Log -> bool)
    requires Fixed(w) && Tracking(before, blocks, w, at, cfg) && cfg.roots.Configured() && Scans(known, before, cfg)
    requires Batches.Sound(w.chain, known, at + 1, end, cfg.roots, genuine)
    requires StoredThrough(grown, blocks, Batch(w.chain, known, at + 1, end, cfg.roots), reached)
    ensures Orderly(w, blocks, cfg.roots) ==> Orderly(w, grown, cfg.roots) && FineRange(w, at, end, cfg.roots, genuine)
  {
    if Orderly(w, blocks, cfg.roots) {
      CollectedFine(before, blocks, w, at, end, cfg, known, genuine);
      BatchFactory(blocks, grown, w, known, at + 1, end, cfg.roots);
    }
  }

  lemma {:induction false} BlockedBy(e: CatchUpError, before: Store.State, db: Store.State, w: Source,
                                     known: seq<Address>, logs: seq<Log>,
                                     at: nat, end: nat, genuine: Log -> bool, cfg: Config)
    requires Scans(known, before, cfg) && Pairing.ValidGraduations(logs, cfg.roots)
    requires logs == Batch(w.chain, known, at + 1, end, cfg.roots) && Unstored(e, db, w, logs, at, end, cfg)
    ensures Blocked(e, before, db, w, at, end, genuine, cfg)
  {
    if e.Applying? {
      NeverUnpaired(db, w, logs, at, end, e.error, cfg);
      assert ScanRefused(known, before, db, w, at, end, e.error, cfg);
    }
  }

  lemma {:induction false} BatchLogs(w: Source, known: seq<Address>, at: nat, end: nat, roots: Roots)
    requires ChainLogs(w.chain) && Covers(known, w.chain, at + 1, roots)
    ensures var logs := Batch(w.chain, known, at + 1, end, roots);
      Discovery.Ascending(logs) && (forall l | l in logs :: l in w.chain && at < l.block <= end)
      && Select(logs, l => Tracked(w.chain, l, roots)) == TrackedLogs(w.chain, at + 1, end, roots)
  {
    BatchAscending(w.chain, known, at + 1, end, roots);
    forall l | l in Batch(w.chain, known, at + 1, end, roots) ensures l in w.chain && at < l.block <= end {
      BatchWithin(w.chain, known, at + 1, end, roots, l);
    }
    BatchComplete(w.chain, known, at + 1, end, roots);
  }

  lemma {:induction false} ScanBlocked(e: ScanError, db: Store.State, blocks: seq<Block>, w: Source,
                                       known: seq<Address>, at: nat, end: nat,
                                       genuine: Log -> bool, cfg: Config)
    requires Fixed(w) && Tracking(db, blocks, w, at, cfg) && cfg.roots.Configured()
    requires Scans(known, db, cfg) && Hindered(e, w.chain, known, at + 1, end, cfg.roots, genuine)
    ensures Blocked(Scanning(e), db, db, w, at, end, genuine, cfg)
    ensures Orderly(w, blocks, cfg.roots) ==> e.TooManyGraduations? || !FineRange(w, at, end, cfg.roots, genuine)
  {
    if Orderly(w, blocks, cfg.roots) { HinderedUnfine(db, blocks, w, at, end, cfg, known, e, genuine); }
  }

  /** What the collection half of a batch hands to the storage half. */
  ghost predicate Collected(logs: seq<Log>, known: seq<Address>, db: Store.State, w: Source, at: nat, end: nat,
                            genuine: Log -> bool, cfg: Config)
  {
    Scans(known, db, cfg) && Covers(known, w.chain, at + 1, cfg.roots)
    && logs == Batch(w.chain, known, at + 1, end, cfg.roots)
    && Batches.Sound(w.chain, known, at + 1, end, cfg.roots, genuine) && Pairing.ValidGraduations(logs, cfg.roots)
  }

  /** The collection half: read the scan set back and query. */
  method Collect(store: Store.Store, w: Source, at: nat, end: nat, chunk: nat, genuine: Log -> bool,
                 ghost blocks: seq<Block>)
    returns (r: Result<seq<Log>, ScanError>, ghost known: seq<Address>)
    requires Fixed(w) && chunk > 0 && store.cfg.roots.Configured() && Tracking(store.db, blocks, w, at, store.cfg)
    ensures r.Ok? ==> Collected(r.value, known, store.db, w, at, end, genuine, store.cfg)
    ensures r.Err? ==> Blocked(Scanning(r.error), store.db, store.db, w, at, end, genuine, store.cfg)
    ensures r.Err? && Orderly(w, blocks, store.cfg.roots) ==>
      r.error.TooManyGraduations? || !FineRange(w, at, end, store.cfg.roots, genuine)
  {
    var roots := store.cfg.roots;
    var scanned := ScanContracts(store.db, Configured(roots), store.cfg.excluded);
    known := scanned;
    ScanCovers(store.db, blocks, w, at, store.cfg, known);
    r := CollectBatch(w.chain, scanned, at + 1, end, roots, genuine, chunk);
    if r.Err? {
      ScanBlocked(r.error, store.db, blocks, w, known, at, end, genuine, store.cfg);
    } else {
      SoundPaired(w.chain, known, at + 1, end, roots, genuine);
    }
  }

  /** One batch: read the scan set back, collect, store. Stopped, everything up to the last block it
      stored is tracked. */
  method OneBatch(store: Store.Store, w: Source, at: nat, end: nat, chunk: nat, genuine: Log -> bool,
                  ghost blocks: seq<Block>)
    returns (r: Result<seq<Log>, CatchUpError>, ghost grown: seq<Block>, reached: nat)
    requires Fixed(w) && chunk > 0 && at < end && store.cfg.roots.Configured()
    requires Tracking(store.db, blocks, w, at, store.cfg)
    modifies store
    ensures Tracking(store.db, grown, w, reached, store.cfg) && at <= reached <= end && (r.Ok? ==> reached == end)
    ensures reached == at ==> grown == blocks
    ensures r.Ok? ==>
      Select(r.value, l => Tracked(w.chain, l, store.cfg.roots)) == TrackedLogs(w.chain, at + 1, end, store.cfg.roots)
    ensures r.Err? ==> Blocked(r.error, old(store.db), store.db, w, at, end, genuine, store.cfg)
    ensures Orderly(w, blocks, store.cfg.roots) ==> Orderly(w, grown, store.cfg.roots)
    ensures Orderly(w, blocks, store.cfg.roots) && r.Ok? ==> FineRange(w, at, end, store.cfg.roots, genuine)
    ensures Orderly(w, blocks, store.cfg.roots) && r.Err? && r.error.Scanning? ==>
      r.error.scan.TooManyGraduations? || !FineRange(w, at, end, store.cfg.roots, genuine)
  {
    ghost var before, roots := store.db, store.cfg.roots;
    var logs;
    ghost var known;
    logs, known := Collect(store, w, at, end, chunk, genuine, blocks);
    if logs.Err? { return Err(Scanning(logs.error)), blocks, at; }
    BatchLogs(w, known, at, end, roots);
    var applied;
    applied, grown, reached := ApplyNumbers(store, w, logs.value, at, end, blocks);
    CatchesUp(blocks, grown, w, known, logs.value, at, end, reached, roots);
    OrderlyGrows(before, blocks, grown, w, known, at, end, reached, store.cfg, genuine);
    if applied.Err? {
      BlockedBy(applied.error, before, store.db, w, known, logs.value, at, end, genuine, store.cfg);
      return Err(applied.error), grown, reached;
    }
    return Ok(logs.value), grown, reached;
  }

  /** Batches up to a target: on success the collected logs, reduced to tracked ones, are the chain's
      tracked logs in order, for every batch size and chunking. Stopped or not, every tracked log up to
      the height reached is stored. On an orderly chain collection stops exactly at tracked logs that do
      not pass or, in its one check that sees the batch, at too many graduations. */
  method ToTarget(store: Store.Store, w: Source, last: nat, target: nat, batchSize: nat, chunk: nat,
                  genuine: Log -> bool, ghost blocks: seq<Block>)
    returns (r: Result<seq<Log>, CatchUpError>, ghost grown: seq<Block>, reached: nat)
    requires Fixed(w) && batchSize > 0 && chunk > 0 && last <= target && store.cfg.roots.Configured()
    requires Tracking(store.db, blocks, w, last, store.cfg)
    modifies store
    ensures Tracking(store.db, grown, w, reached, store.cfg) && last <= reached <= target
      && (r.Ok? ==> reached == target)
    ensures reached == last ==> grown == blocks
    ensures r.Ok? ==> Select(r.value, l => Tracked(w.chain, l, store.cfg.roots))
                      == TrackedLogs(w.chain, last + 1, target, store.cfg.roots)
    ensures r.Err? ==> Stuck(r.error, store.db, w, last, target, genuine, store.cfg)
    ensures Orderly(w, blocks, store.cfg.roots) && r.Ok? ==>
      AllFine(w.chain, last, target, batchSize, store.cfg.roots, genuine)
    ensures Orderly(w, blocks, store.cfg.roots) && r.Err? && r.error.Scanning? ==>
      r.error.scan.TooManyGraduations? || !AllFine(w.chain, last, target, batchSize, store.cfg.roots, genuine)
  {
    var at, collected := last, [];
    grown := blocks;
    EmptyRange(w.chain, last, store.cfg.roots);
    while at < target
      invariant last <= at <= target && Tracking(store.db, grown, w, at, store.cfg) && (at == last ==> grown == blocks)
      invariant Select(collected, l => Tracked(w.chain, l, store.cfg.roots))
        == TrackedLogs(w.chain, last + 1, at, store.cfg.roots)
      invariant Orderly(w, blocks, store.cfg.roots) ==> Orderly(w, grown, store.cfg.roots)
      invariant Orderly(w, blocks, store.cfg.roots) ==>
        AllFine(w.chain, last, target, batchSize, store.cfg.roots, genuine)
        == AllFine(w.chain, at, target, batchSize, store.cfg.roots, genuine)
    {
      var end := if at + batchSize > target then target else at + batchSize;
      AllFineStep(w.chain, at, target, batchSize, store.cfg.roots, genuine);
      var logs;
      ghost var before := store.db;
      logs, grown, reached := OneBatch(store, w, at, end, chunk, genuine, grown);
      if logs.Err? {
        StuckAt(logs.error, before, store.db, w, last, target, at, end, genuine, store.cfg);
        return logs, grown, reached;
      }
      CollectsMore(collected, logs.value, w.chain, last, at, end, store.cfg.roots);
      collected := collected + logs.value;
      at := end;
    }
    return Ok(collected), grown, at;
  }

  lemma {:induction false} SelectJoin(a: seq<Log>, b: seq<Log>, keep: Log -> bool)
    ensures Select(a + b, keep) == Select(a, keep) + Select(b, keep)
    decreases |b|
  {
    if b == [] {
      assert a + b == a;
    } else {
      var init := b[..|b| - 1];
      assert (a + b)[..|a + b| - 1] == a + init;
      SelectJoin(a, init, keep);
    }
  }

  lemma {:induction false} CollectsMore(collected: seq<Log>, logs: seq<Log>, chain: seq<Log>, last: nat, at: nat,
                                        end: nat, roots: Roots)
    requires ChainLogs(chain) && last <= at <= end
    requires Select(logs, l => Tracked(chain, l, roots)) == TrackedLogs(chain, at + 1, end, roots)
    requires Select(collected, l => Tracked(chain, l, roots)) == TrackedLogs(chain, last + 1, at, roots)
    ensures Select(collected + logs, l => Tracked(chain, l, roots)) == TrackedLogs(chain, last + 1, end, roots)
  {
    SelectJoin(collected, logs, l => Tracked(chain, l, roots));
    TrackedJoin(chain, last + 1, at, end, roots);
  }

  const BAD_SWAP := Log(2, 12, 22, 0, 0, 4, Swap(5, 1))

  /** What the store makes of a batch can depend on its size: a swap without valid deltas is not collected
      by one batch over its pool's launch, and refused wherever two batches collect it. */
  lemma {:induction false} RefusalNeedsSmallBatch(v: View, ctx: Context, cfg: Config, later: seq<Address>)
    requires cfg.roots.factory == 1 && cfg.roots.feeManager != 4 && cfg.roots.registry != 4
    requires Covers(later, [LAUNCH, BAD_SWAP], 2, cfg.roots) && PoolOwner(v.curves, v.tokens, 4).Some?
    ensures BAD_SWAP !in Batch([LAUNCH, BAD_SWAP], Configured(cfg.roots), 1, 2, cfg.roots)
    ensures BAD_SWAP in Batch([LAUNCH, BAD_SWAP], later, 2, 2, cfg.roots)
    ensures RecordLog(v, BAD_SWAP, ctx, cfg) == Err(InvalidDeltas)
  {
    var chain := [LAUNCH, BAD_SWAP];
    assert chain[0] == LAUNCH && chain[1] == BAD_SWAP;
    assert LAUNCH in chain && BAD_SWAP in chain && FactoryLaunch(LAUNCH, cfg.roots);
    SwapCollectedIff(chain, Configured(cfg.roots), 1, 2, cfg.roots, BAD_SWAP);
    SwapCollectedIff(chain, later, 2, 2, cfg.roots, BAD_SWAP);
    Swaps.ReadingMeansExchange(PoolOwner(v.curves, v.tokens, 4).value, 5, 1);
  }
}
