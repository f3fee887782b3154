/** What the flagged tables mean: after any legal run of Apply and Rewind, the canonical rows and
    everything derived from them are a fresh in-order replay of the surviving blocks. */
module Reorg {
  import opened Wrappers
  import opened Chain
  import opened Tables
  import opened CtoProjection
  import opened Views
  import opened Store
  import Order

  // ---------------------------------------------------------------- views below a height

  function BelowView(v: View, from: nat): View {
    View(Below(v.blocks, from), Below(v.events, from), Below(v.tokens, from), Below(v.curves, from),
      Below(v.trades, from),
         Below(v.graduations, from), Below(v.liquidity, from))
  }

  function WithoutRivalsView(v: View, n: nat, hash: Hash): View {
    View(WithoutRivals(v.blocks, n, hash), WithoutRivals(v.events, n, hash), WithoutRivals(v.tokens, n, hash),
      WithoutRivals(v.curves, n, hash),
         WithoutRivals(v.trades, n, hash), WithoutRivals(v.graduations, n, hash), WithoutRivals(v.liquidity, n, hash))
  }

  lemma {:induction false} SeenOrphanedFrom(s: State, from: nat)
    ensures Seen(OrphanedFrom(s, from)) == BelowView(Seen(s), from)
  {
    CanonicalOrphanFrom(s.blocks, from);
    CanonicalOrphanFrom(s.events, from);
    CanonicalOrphanFrom(s.tokens, from);
    CanonicalOrphanFrom(s.curves, from);
    CanonicalOrphanFrom(s.trades, from);
    CanonicalOrphanFrom(s.graduations, from);
    CanonicalOrphanFrom(s.liquidity, from);
  }

  lemma {:induction false} SeenBlockOpened(s: State, b: Header)
    ensures Seen(BlockOpened(s, b)) == Started(WithoutRivalsView(Seen(s), b.number, b.hash), b)
  {
    CanonicalOrphanRivals(s.blocks, b.number, b.hash);
    CanonicalUpsert(OrphanRivals(s.blocks, b.number, b.hash), b.hash, BlockFact(b));
    CanonicalOrphanRivals(s.events, b.number, b.hash);
    CanonicalOrphanRivals(s.tokens, b.number, b.hash);
    CanonicalOrphanRivals(s.curves, b.number, b.hash);
    CanonicalOrphanRivals(s.trades, b.number, b.hash);
    CanonicalOrphanRivals(s.graduations, b.number, b.hash);
    CanonicalOrphanRivals(s.liquidity, b.number, b.hash);
  }

  lemma {:induction false} SeenUpserted<T>(t: Table<LogKey, T>, l: Log, data: Option<T>)
    ensures Canonical(Upserted(t, l, data)) == Put(Canonical(t), l, data)
  {
    if data.Some? { CanonicalUpsert(t, l.Key(), Fact(l.block, l.blockHash, data.value)); }
  }

  lemma {:induction false} SeenInserted(s: State, l: Log, w: Writes)
    ensures Seen(Inserted(s, l, w)) == PutAll(Seen(s), l, w)
  {
    SeenUpserted(s.events, l, w.event);
    SeenUpserted(s.tokens, l, w.token);
    SeenUpserted(s.curves, l, w.curve);
    SeenUpserted(s.trades, l, w.trade);
    SeenUpserted(s.graduations, l, w.graduation);
    SeenUpserted(s.liquidity, l, w.liquidity);
  }

  // ---------------------------------------------------------------- trust

  /** Every visible treasury row is backed by its canonical, root-emitted deployment event, so the
      union that decides trust never says more than the events do. */
  ghost predicate Backed(s: State, roots: Roots) {
    forall k | k in s.cto.records && s.cto.records[k].canonical && s.cto.records[k].data.Treasury? ::
      k in s.events && s.events[k].canonical && s.events[k].block == s.cto.records[k].block
      && s.events[k].hash == s.cto.records[k].hash
      && Deploys(s.events[k].data, s.cto.records[k].data.treasury, roots)
  }

  lemma {:induction false} TrustIsEvents(s: State, l: Log, roots: Roots)
    requires Backed(s, roots)
    ensures TrustedEmitter(s, l, roots) <==> TrustedLog(Seen(s), l, roots)
  {
    if l.payload.Cto? && roots.Configured() && KindOf(l.payload.event).TreasuryKind? {
      var events := Canonical(s.events);
      if k :| k in s.cto.records && s.cto.records[k].canonical && s.cto.records[k].data.Treasury?
              && s.cto.records[k].data.treasury == l.address {
        assert k in events && Deploys(events[k].data, l.address, roots);
      }
      if k :| k in s.events && s.events[k].canonical && Deploys(s.events[k].data, l.address, roots) {
        assert k in events && Deploys(events[k].data, l.address, roots);
      }
      if k :| k in events && Deploys(events[k].data, l.address, roots) {
        assert s.events[k].canonical && Deploys(s.events[k].data, l.address, roots);
      }
    }
  }

  /** If this log's row is a visible treasury's deployment, the log states that deployment again. */
  ghost predicate Restates(s: State, l: Log, roots: Roots) {
    var k := l.Key();
    k in s.cto.records && s.cto.records[k].canonical && s.cto.records[k].data.Treasury? ==>
      roots.Configured() && Deploys(Event(l.txIndex, l.address, l.payload), s.cto.records[k].data.treasury, roots)
      && s.cto.records[k].block == l.block && s.cto.records[k].hash == l.blockHash
  }

  lemma {:induction false} LogRefines(s: State, l: Log, ctx: Context, cfg: Config)
    requires Backed(s, cfg.roots) && Restates(s, l, cfg.roots)
    ensures match LogInserted(s, l, ctx, cfg)
            case Err(e) => RecordLog(Seen(s), l, ctx, cfg) == Err(e)
            case Ok(t) => RecordLog(Seen(s), l, ctx, cfg) == Ok(Seen(t)) && Backed(t, cfg.roots) && t.cto == s.cto
  {
    TrustIsEvents(s, l, cfg.roots);
    match EffectsIn(Seen(s), l, ctx, cfg) {
      case Err(_) =>
      case Ok(w) => SeenInserted(s, l, w);
    }
  }

  lemma {:induction false} LogsRefine(s: State, b: Block, n: nat, cfg: Config)
    requires n <= |b.logs|
    requires Backed(s, cfg.roots) && forall l | l in b.logs :: Restates(s, l, cfg.roots)
    ensures match LogsInserted(s, b, n, cfg)
            case Err(e) => RecordLogs(Seen(s), b, n, cfg) == Err(e)
            case Ok(t) => RecordLogs(Seen(s), b, n, cfg) == Ok(Seen(t)) && Backed(t, cfg.roots) && t.cto == s.cto
  {
    if n > 0 {
      LogsRefine(s, b, n - 1, cfg);
      match LogsInserted(s, b, n - 1, cfg) {
        case Err(_) =>
        case Ok(t) =>
          assert b.logs[n - 1] in b.logs;
          assert Restates(t, b.logs[n - 1], cfg.roots);
          LogRefines(t, b.logs[n - 1], b.context, cfg);
      }
    }
  }

  // ---------------------------------------------------------------- where facts come from

  ghost predicate From(chain: seq<Block>, k: LogKey, block: nat, hash: Hash) {
    exists i | 0 <= i < |chain| ::
      chain[i].header.number == block && chain[i].header.hash == hash && HasKey(chain[i], k)
  }

  ghost predicate HasKey(b: Block, k: LogKey) {
    exists l | l in b.logs :: l.Key() == k
  }

  ghost predicate Anchored<T>(facts: Facts<LogKey, T>, chain: seq<Block>) {
    forall k | k in facts :: From(chain, k, facts[k].block, facts[k].hash)
  }

  ghost predicate HasHeader(chain: seq<Block>, f: Fact<BlockInfo>) {
    exists i | 0 <= i < |chain| :: BlockFact(chain[i].header) == f
  }

  ghost predicate AnchoredView(v: View, chain: seq<Block>) {
    Anchored(v.events, chain) && Anchored(v.tokens, chain) && Anchored(v.curves, chain) && Anchored(v.trades, chain)
    && Anchored(v.graduations, chain) && Anchored(v.liquidity, chain)
    && forall h | h in v.blocks :: v.blocks[h].hash == h && HasHeader(chain, v.blocks[h])
  }

  lemma {:induction false} FromGrows(chain: seq<Block>, b: Block, k: LogKey, block: nat, hash: Hash)
    requires From(chain, k, block, hash)
    ensures From(chain + [b], k, block, hash)
  {
    var i :| 0 <= i < |chain| && chain[i].header.number == block && chain[i].header.hash == hash && HasKey(chain[i], k);
    assert (chain + [b])[i] == chain[i];
  }

  lemma {:induction false} PutAnchored<T>(facts: Facts<LogKey, T>, chain: seq<Block>, b: Block, l: Log, data: Option<T>)
    requires Anchored(facts, chain + [b])
    requires l in b.logs && l.block == b.header.number && l.blockHash == b.header.hash
    ensures Anchored(Put(facts, l, data), chain + [b])
  {
    assert (chain + [b])[|chain|] == b && HasKey(b, l.Key());
  }

  lemma {:induction false} GrowAnchored<T>(facts: Facts<LogKey, T>, chain: seq<Block>, b: Block)
    requires Anchored(facts, chain)
    ensures Anchored(facts, chain + [b])
  {
    forall k | k in facts ensures From(chain + [b], k, facts[k].block, facts[k].hash) {
      FromGrows(chain, b, k, facts[k].block, facts[k].hash);
    }
  }

  lemma {:induction false} LogsAnchored(v: View, chain: seq<Block>, b: Block, n: nat, cfg: Config)
    requires AnchoredView(v, chain + [b]) && n <= |b.logs|
    ensures RecordLogs(v, b, n, cfg).Ok? ==>
      AnchoredView(RecordLogs(v, b, n, cfg).value, chain + [b]) && RecordLogs(v, b, n, cfg).value.blocks == v.blocks
  {
    if n > 0 && RecordLogs(v, b, n, cfg).Ok? {
      LogsAnchored(v, chain, b, n - 1, cfg);
      var u, l := RecordLogs(v, b, n - 1, cfg).value, b.logs[n - 1];
      var w := EffectsIn(u, l, b.context, cfg).value;
      PutAnchored(u.events, chain, b, l, w.event);
      PutAnchored(u.tokens, chain, b, l, w.token);
      PutAnchored(u.curves, chain, b, l, w.curve);
      PutAnchored(u.trades, chain, b, l, w.trade);
      PutAnchored(u.graduations, chain, b, l, w.graduation);
      PutAnchored(u.liquidity, chain, b, l, w.liquidity);
    }
  }

  lemma {:induction false} BlockAnchored(v: View, chain: seq<Block>, b: Block, cfg: Config)
    requires AnchoredView(v, chain)
    ensures RecordBlock(v, b, cfg).Ok? ==> AnchoredView(RecordBlock(v, b, cfg).value, chain + [b])
  {
    var started := Started(v, b.header);
    GrowAnchored(v.events, chain, b);
    GrowAnchored(v.tokens, chain, b);
    GrowAnchored(v.curves, chain, b);
    GrowAnchored(v.trades, chain, b);
    GrowAnchored(v.graduations, chain, b);
    GrowAnchored(v.liquidity, chain, b);
    forall h | h in started.blocks
      ensures started.blocks[h].hash == h && HasHeader(chain + [b], started.blocks[h])
    {
      if h == b.header.hash {
        assert (chain + [b])[|chain|] == b;
      } else {
        var i :| 0 <= i < |chain| && BlockFact(chain[i].header) == v.blocks[h];
        assert (chain + [b])[i] == chain[i];
      }
    }
    LogsAnchored(started, chain, b, |b.logs|, cfg);
  }

  lemma {:induction false} ChainAnchored(chain: seq<Block>, cfg: Config)
    requires ViewOf(chain, cfg).Ok?
    ensures AnchoredView(ViewOf(chain, cfg).value, chain)
    decreases |chain|
  {
    if chain != [] {
      var init := chain[..|chain| - 1];
      ChainAnchored(init, cfg);
      BlockAnchored(ViewOf(init, cfg).value, init, chain[|chain| - 1], cfg);
      assert chain == init + [chain[|chain| - 1]];
    }
  }

  // ---------------------------------------------------------------- legal chains

  /** Heights rise, hashes name headers, and no two blocks share a (transaction, log index). */
  ghost predicate Legal(chain: seq<Block>) {
    forall i, j | 0 <= i < j < |chain| ::
      chain[i].header.number < chain[j].header.number && chain[i].header.hash != chain[j].header.hash
      && Disjoint(chain[i], chain[j])
  }

  ghost predicate Disjoint(a: Block, b: Block) {
    forall k | HasKey(a, k) :: !HasKey(b, k)
  }

  /** How many blocks of a chain lie below a height. */
  function Cut(chain: seq<Block>, from: nat): (n: nat)
    ensures n <= |chain|
    decreases |chain|
  {
    if chain == [] then 0
    else if chain[|chain| - 1].header.number < from then |chain|
    else Cut(chain[..|chain| - 1], from)
  }

  lemma {:induction false} CutSplits(chain: seq<Block>, from: nat)
    requires Legal(chain)
    ensures forall i | 0 <= i < |chain| :: chain[i].header.number < from <==> i < Cut(chain, from)
    decreases |chain|
  {
    if chain != [] && chain[|chain| - 1].header.number >= from {
      CutSplits(chain[..|chain| - 1], from);
    }
  }

  // ---------------------------------------------------------------- forgetting the blocks above a height

  lemma {:induction false} PutAbove<T>(facts: Facts<LogKey, T>, l: Log, data: Option<T>, from: nat)
    requires l.block >= from
    requires l.Key() in facts ==> facts[l.Key()].block >= from
    ensures Below(Put(facts, l, data), from) == Below(facts, from)
    ensures forall k | k in Put(facts, l, data) && Put(facts, l, data)[k].block < from ::
      k in facts && facts[k] == Put(facts, l, data)[k]
  {
    if data.Some? { BelowUpdate(facts, l.Key(), Fact(l.block, l.blockHash, data.value), from); }
  }

  ghost predicate KeyAbove(v: View, k: LogKey, from: nat) {
    (k in v.events ==> v.events[k].block >= from) && (k in v.tokens ==> v.tokens[k].block >= from)
    && (k in v.curves ==> v.curves[k].block >= from) && (k in v.trades ==> v.trades[k].block >= from)
    && (k in v.graduations ==> v.graduations[k].block >= from) && (k in v.liquidity ==> v.liquidity[k].block >= from)
  }

  ghost predicate KeyAbsent(v: View, k: LogKey) {
    k !in v.events && k !in v.tokens && k !in v.curves && k !in v.trades && k !in v.graduations && k !in v.liquidity
  }

  lemma {:induction false} LogsAbove(v: View, b: Block, n: nat, cfg: Config, from: nat)
    requires n <= |b.logs| && b.header.number >= from
    requires forall l | l in b.logs :: KeyAbove(v, l.Key(), from)
    requires RecordLogs(v, b, n, cfg).Ok?
    ensures BelowView(RecordLogs(v, b, n, cfg).value, from) == BelowView(v, from)
    ensures forall l | l in b.logs :: KeyAbove(RecordLogs(v, b, n, cfg).value, l.Key(), from)
  {
    if n > 0 {
      LogsAbove(v, b, n - 1, cfg, from);
      var u, l := RecordLogs(v, b, n - 1, cfg).value, b.logs[n - 1];
      var w := EffectsIn(u, l, b.context, cfg).value;
      assert l in b.logs;
      LogAbove(u, l, w, from);
      forall m | m in b.logs ensures KeyAbove(PutAll(u, l, w), m.Key(), from) { KeyStaysAbove(u, l, w, m.Key(), from); }
    }
  }

  lemma {:induction false} LogAbove(u: View, l: Log, w: Writes, from: nat)
    requires l.block >= from && KeyAbove(u, l.Key(), from)
    ensures BelowView(PutAll(u, l, w), from) == BelowView(u, from)
  {
    PutAbove(u.events, l, w.event, from);
    PutAbove(u.tokens, l, w.token, from);
    PutAbove(u.curves, l, w.curve, from);
    PutAbove(u.trades, l, w.trade, from);
    PutAbove(u.graduations, l, w.graduation, from);
    PutAbove(u.liquidity, l, w.liquidity, from);
  }

  lemma {:induction false} KeyStaysAbove(u: View, l: Log, w: Writes, k: LogKey, from: nat)
    requires l.block >= from && KeyAbove(u, k, from)
    ensures KeyAbove(PutAll(u, l, w), k, from)
  {
  }

  lemma {:induction false} FactsElsewhere<T>(facts: Facts<LogKey, T>, chain: seq<Block>, b: Block, k: LogKey)
    requires Anchored(facts, chain) && Legal(chain + [b]) && HasKey(b, k)
    ensures k !in facts
  {
    forall i | 0 <= i < |chain| ensures !HasKey(chain[i], k) {
      assert (chain + [b])[i] == chain[i] && (chain + [b])[|chain|] == b;
      assert Disjoint(chain[i], b);
    }
  }

  lemma {:induction false} KeysElsewhere(v: View, chain: seq<Block>, b: Block, l: Log)
    requires AnchoredView(v, chain) && Legal(chain + [b]) && l in b.logs
    ensures KeyAbsent(v, l.Key())
  {
    assert HasKey(b, l.Key());
    FactsElsewhere(v.events, chain, b, l.Key());
    FactsElsewhere(v.tokens, chain, b, l.Key());
    FactsElsewhere(v.curves, chain, b, l.Key());
    FactsElsewhere(v.trades, chain, b, l.Key());
    FactsElsewhere(v.graduations, chain, b, l.Key());
    FactsElsewhere(v.liquidity, chain, b, l.Key());
  }

  lemma {:induction false} HashElsewhere(v: View, chain: seq<Block>, b: Block)
    requires AnchoredView(v, chain) && Legal(chain + [b])
    ensures b.header.hash !in v.blocks
  {
    forall i | 0 <= i < |chain| ensures chain[i].header.hash != b.header.hash {
      assert (chain + [b])[i] == chain[i] && (chain + [b])[|chain|] == b;
    }
  }

  lemma {:induction false} StartAbove(v: View, b: Header, from: nat)
    requires b.number >= from && b.hash !in v.blocks
    ensures BelowView(Started(v, b), from) == BelowView(v, from)
  {
    BelowUpdate(v.blocks, b.hash, BlockFact(b), from);
  }

  lemma {:induction false} BlockAbove(v: View, chain: seq<Block>, b: Block, cfg: Config, from: nat)
    requires AnchoredView(v, chain) && Legal(chain + [b]) && b.header.number >= from
    requires RecordBlock(v, b, cfg).Ok?
    ensures BelowView(RecordBlock(v, b, cfg).value, from) == BelowView(v, from)
  {
    var started := Started(v, b.header);
    forall l | l in b.logs ensures KeyAbove(started, l.Key(), from) { KeysElsewhere(v, chain, b, l); }
    LogsAbove(started, b, |b.logs|, cfg, from);
    HashElsewhere(v, chain, b);
    StartAbove(v, b.header, from);
  }

  lemma {:induction false} FactsAllBelow<T>(facts: Facts<LogKey, T>, chain: seq<Block>, from: nat)
    requires Anchored(facts, chain) && forall i | 0 <= i < |chain| :: chain[i].header.number < from
    ensures Below(facts, from) == facts
  {
    forall k | k in facts ensures facts[k].block < from { assert From(chain, k, facts[k].block, facts[k].hash); }
  }

  lemma {:induction false} AllBelow(v: View, chain: seq<Block>, from: nat)
    requires AnchoredView(v, chain) && forall i | 0 <= i < |chain| :: chain[i].header.number < from
    ensures BelowView(v, from) == v
  {
    FactsAllBelow(v.events, chain, from);
    FactsAllBelow(v.tokens, chain, from);
    FactsAllBelow(v.curves, chain, from);
    FactsAllBelow(v.trades, chain, from);
    FactsAllBelow(v.graduations, chain, from);
    FactsAllBelow(v.liquidity, chain, from);
    forall h | h in v.blocks ensures v.blocks[h].block < from { assert HasHeader(chain, v.blocks[h]); }
  }

  /** Cutting a replayed view at a height is replaying the blocks below it. */
  lemma {:induction false} ViewBelow(chain: seq<Block>, cfg: Config, from: nat)
    requires Legal(chain) && ViewOf(chain, cfg).Ok?
    ensures ViewOf(chain[..Cut(chain, from)], cfg) == Ok(BelowView(ViewOf(chain, cfg).value, from))
    decreases |chain|
  {
    ChainAnchored(chain, cfg);
    if chain == [] || chain[|chain| - 1].header.number < from {
      CutSplits(chain, from);
      AllBelow(ViewOf(chain, cfg).value, chain, from);
      assert chain[..Cut(chain, from)] == chain;
    } else {
      var init, b := chain[..|chain| - 1], chain[|chain| - 1];
      assert chain == init + [b];
      LegalPrefix(chain, |init|);
      assert ViewOf(init, cfg).Ok?;
      ViewBelow(init, cfg, from);
      ChainAnchored(init, cfg);
      BlockAbove(ViewOf(init, cfg).value, init, b, cfg, from);
      assert chain[..Cut(chain, from)] == init[..Cut(init, from)];
    }
  }

  /** A replacement leaves exactly the view of the blocks below it. */
  lemma {:induction false} WithoutRivalsIsBelow(v: View, chain: seq<Block>, b: Header)
    requires AnchoredView(v, chain)
    requires forall i | 0 <= i < |chain| ::
      chain[i].header.number <= b.number && (chain[i].header.number == b.number ==> chain[i].header.hash != b.hash)
    ensures WithoutRivalsView(v, b.number, b.hash) == BelowView(v, b.number)
  {
    RivalsBelow(v.events, chain, b);
    RivalsBelow(v.tokens, chain, b);
    RivalsBelow(v.curves, chain, b);
    RivalsBelow(v.trades, chain, b);
    RivalsBelow(v.graduations, chain, b);
    RivalsBelow(v.liquidity, chain, b);
    forall h | h in v.blocks
      ensures v.blocks[h].block == b.number && v.blocks[h].hash != b.hash <==> v.blocks[h].block >= b.number
    {
      assert HasHeader(chain, v.blocks[h]);
    }
  }

  lemma {:induction false} RivalsBelow<T>(facts: Facts<LogKey, T>, chain: seq<Block>, b: Header)
    requires Anchored(facts, chain)
    requires forall i | 0 <= i < |chain| ::
      chain[i].header.number <= b.number && (chain[i].header.number == b.number ==> chain[i].header.hash != b.hash)
    ensures WithoutRivals(facts, b.number, b.hash) == Below(facts, b.number)
  {
    forall k | k in facts
      ensures facts[k].block == b.number && facts[k].hash != b.hash <==> facts[k].block >= b.number
    {
      assert From(chain, k, facts[k].block, facts[k].hash);
    }
  }

  // ---------------------------------------------------------------- the CTO tables

  lemma {:induction false} CtoLogsMembers(v: View, ps: seq<Order.Pos>, e: CtoLog)
    requires forall p | p in ps :: Listed(v, p)
    ensures e in CtoLogs(v, ps) <==> exists p | p in ps :: CtoLogAt(v, p) == Some(e)
    decreases |ps|
  {
    if ps != [] {
      var init, last := ps[..|ps| - 1], ps[|ps| - 1];
      CtoLogsMembers(v, init, e);
      assert ps == init + [last];
    }
  }

  /** The CTO history lists exactly the canonical CTO events of canonical blocks. */
  lemma {:induction false} CtoHistoryMembers(v: View, e: CtoLog)
    ensures e in CtoHistory(v) <==>
      var k := e.mark.Key();
      k in v.events && v.events[k].hash in v.blocks && v.events[k].data.payload == Cto(e.event)
      && e == CtoLog(v.events[k].data.address, Mark(v.events[k].block, v.events[k].hash, k.tx, k.index),
                     v.blocks[v.events[k].hash].data.time, e.event)
  {
    var ps := EventOrder(v);
    EventOrderListed(v);
    CtoLogsMembers(v, ps, e);
    var k := e.mark.Key();
    if k in v.events && v.events[k].hash in v.blocks {
      var p := Order.Pos(v.events[k].block, v.events[k].data.txIndex, k.index, k.tx);
      assert p in ps;
      assert Listed(v, p) && LogKey(p.tx, p.index) == k;
    }
  }

  /** Registry events are recorded only from the registry. */
  ghost predicate RootedEvents(v: View, roots: Roots) {
    forall k | k in v.events && v.events[k].data.payload.Cto? && v.events[k].data.payload.event.TreasuryDeployed? ::
      v.events[k].data.address == roots.registry
  }

  lemma {:induction false} EffectsEvent(l: Log, trusted: bool, owner: Option<Address>, ctx: Context, cfg: Config)
    requires Effects(l, trusted, owner, ctx, cfg).Ok?
    ensures var e := Effects(l, trusted, owner, ctx, cfg).value.event;
      e.Some? ==> e.value == Event(l.txIndex, l.address, l.payload) && (l.payload.Cto? ==> trusted)
  {
  }

  lemma {:induction false} LogRooted(v: View, l: Log, ctx: Context, cfg: Config)
    requires RootedEvents(v, cfg.roots) && EffectsIn(v, l, ctx, cfg).Ok?
    ensures RootedEvents(PutAll(v, l, EffectsIn(v, l, ctx, cfg).value), cfg.roots)
  {
    EffectsEvent(l, TrustedLog(v, l, cfg.roots), PoolOwner(v.curves, v.tokens, l.address), ctx, cfg);
    var w := EffectsIn(v, l, ctx, cfg).value;
    var events := Put(v.events, l, w.event);
    forall k | k in events && events[k].data.payload.Cto? && events[k].data.payload.event.TreasuryDeployed?
      ensures events[k].data.address == cfg.roots.registry
    {
      if w.event.Some? && k == l.Key() { assert TrustedLog(v, l, cfg.roots); } else { assert events[k] == v.events[k]; }
    }
  }

  lemma {:induction false} LogsRooted(v: View, b: Block, n: nat, cfg: Config)
    requires n <= |b.logs| && RootedEvents(v, cfg.roots) && RecordLogs(v, b, n, cfg).Ok?
    ensures RootedEvents(RecordLogs(v, b, n, cfg).value, cfg.roots)
  {
    if n > 0 {
      LogsRooted(v, b, n - 1, cfg);
      LogRooted(RecordLogs(v, b, n - 1, cfg).value, b.logs[n - 1], b.context, cfg);
    }
  }

  lemma {:induction false} ChainRooted(chain: seq<Block>, cfg: Config)
    requires ViewOf(chain, cfg).Ok?
    ensures RootedEvents(ViewOf(chain, cfg).value, cfg.roots)
    decreases |chain|
  {
    if chain != [] {
      var init, b := chain[..|chain| - 1], chain[|chain| - 1];
      ChainRooted(init, cfg);
      var v := ViewOf(init, cfg).value;
      LogsRooted(Started(v, b.header), b, |b.logs|, cfg);
    }
  }

  lemma {:induction false} RecordBacked(v: View, k: LogKey, prior: CtoTables, roots: Roots)
    requires RootedEvents(v, roots)
    requires var rs := Replay(Cleared(prior), CtoHistory(v), CtoHistory(v)).records;
      k in rs && rs[k].canonical && rs[k].data.Treasury?
    ensures var r := Replay(Cleared(prior), CtoHistory(v), CtoHistory(v)).records[k];
      k in v.events && v.events[k].block == r.block && v.events[k].hash == r.hash
      && Deploys(v.events[k].data, r.data.treasury, roots)
  {
    var events := CtoHistory(v);
    RecordsAreTheEvents(Cleared(prior), events, events);
    var rs := Canonical(Replay(Cleared(prior), events, events).records);
    assert k in rs;
    var i :| 0 <= i < |events| && events[i].mark.Key() == k && RecordOf(events[i]).Some?
      && rs[k] == Fact(events[i].mark.block, events[i].mark.hash, RecordOf(events[i]).value);
    assert events[i] in events;
    CtoHistoryMembers(v, events[i]);
  }

  lemma {:induction false} RebuildKeeps(s: State, cfg: Config)
    requires Rebuild(s, cfg).Ok?
    ensures var t := Rebuild(s, cfg).value;
      Seen(t) == Seen(s) && t.events == s.events && !Ambiguous(CtoHistory(Seen(s)))
      && t.cto == Replay(Cleared(s.cto), CtoHistory(Seen(s)), CtoHistory(Seen(s)))
  {
  }

  lemma {:induction false} RebuildBacks(s: State, cfg: Config)
    requires RootedEvents(Seen(s), cfg.roots) && Rebuild(s, cfg).Ok?
    ensures Backed(Rebuild(s, cfg).value, cfg.roots)
    ensures Seen(Rebuild(s, cfg).value) == Seen(s)
  {
    RebuildKeeps(s, cfg);
    var t := Rebuild(s, cfg).value;
    forall k | k in t.cto.records && t.cto.records[k].canonical && t.cto.records[k].data.Treasury?
      ensures k in t.events && t.events[k].canonical && t.events[k].block == t.cto.records[k].block
        && t.events[k].hash == t.cto.records[k].hash
        && Deploys(t.events[k].data, t.cto.records[k].data.treasury, cfg.roots)
    {
      RecordBacked(Seen(s), k, s.cto, cfg.roots);
    }
  }

  // ---------------------------------------------------------------- one step

  /** The state is a faithful index of this chain. */
  ghost predicate Indexes(s: State, chain: seq<Block>, cfg: Config) {
    Legal(chain) && ViewOf(chain, cfg) == Ok(Seen(s)) && Backed(s, cfg.roots)
  }

  lemma {:induction false} BackedOpened(s: State, b: Header, roots: Roots)
    requires Backed(s, roots)
    ensures Backed(BlockOpened(s, b), roots)
  {
  }

  lemma {:induction false} CheckpointUnseen(s: State, c: Option<Checkpoint>, roots: Roots)
    ensures Seen(s.(checkpoint := c)) == Seen(s)
    ensures Backed(s, roots) ==> Backed(s.(checkpoint := c), roots)
  {
  }

  lemma {:induction false} LegalPrefix(chain: seq<Block>, n: nat)
    requires Legal(chain) && n <= |chain|
    ensures Legal(chain[..n])
  {
  }

  lemma {:induction false} RewindRefines(s: State, chain: seq<Block>, from: nat, cfg: Config)
    requires Indexes(s, chain, cfg) && Rewound(s, from, cfg).Ok?
    ensures Indexes(Rewound(s, from, cfg).value, chain[..Cut(chain, from)], cfg)
  {
    SeenOrphanedFrom(s, from);
    ViewBelow(chain, cfg, from);
    LegalPrefix(chain, Cut(chain, from));
    ChainRooted(chain[..Cut(chain, from)], cfg);
    RebuildBacks(OrphanedFrom(s, from), cfg);
    var t := Rebuild(OrphanedFrom(s, from), cfg).value;
    CheckpointUnseen(t, RewoundCheckpoint(t, from), cfg.roots);
  }

  /** A block may extend what survives below its height; at the height it may only replace. */
  ghost predicate Extends(chain: seq<Block>, b: Block) {
    (forall i | 0 <= i < |chain| :: chain[i].header.number <= b.header.number && chain[i].header.hash != b.header.hash)
    && Legal(chain[..Cut(chain, b.header.number)] + [b])
  }

  lemma {:induction false} OpenSeesKept(s: State, chain: seq<Block>, b: Block, cfg: Config)
    requires Indexes(s, chain, cfg) && Extends(chain, b)
    ensures var kept := ViewOf(chain[..Cut(chain, b.header.number)], cfg);
      kept.Ok? && Seen(BlockOpened(s, b.header)) == Started(kept.value, b.header)
  {
    ChainAnchored(chain, cfg);
    SeenBlockOpened(s, b.header);
    WithoutRivalsIsBelow(Seen(s), chain, b.header);
    ViewBelow(chain, cfg, b.header.number);
  }

  lemma {:induction false} FreshKeysRestate(o: State, kept: seq<Block>, b: Block, cfg: Config, l: Log)
    requires Backed(o, cfg.roots) && ViewOf(kept, cfg).Ok? && Legal(kept + [b]) && l in b.logs
    requires Seen(o).events == ViewOf(kept, cfg).value.events
    ensures Restates(o, l, cfg.roots)
  {
    ChainAnchored(kept, cfg);
    KeysElsewhere(ViewOf(kept, cfg).value, kept, b, l);
    assert l.Key() !in Canonical(o.events);
  }

  lemma {:induction false} ApplyRefines(s: State, chain: seq<Block>, b: Block, cfg: Config)
    requires Indexes(s, chain, cfg) && Extends(chain, b) && Applied(s, b, cfg).Ok?
    ensures Indexes(Applied(s, b, cfg).value, chain[..Cut(chain, b.header.number)] + [b], cfg)
  {
    var kept, o := chain[..Cut(chain, b.header.number)], BlockOpened(s, b.header);
    OpenSeesKept(s, chain, b, cfg);
    BackedOpened(s, b.header, cfg.roots);
    forall l | l in b.logs ensures Restates(o, l, cfg.roots) { FreshKeysRestate(o, kept, b, cfg, l); }
    LogsRefine(o, b, |b.logs|, cfg);
    var t := LogsInserted(o, b, |b.logs|, cfg).value;
    assert (kept + [b])[..|kept|] == kept;
    assert ViewOf(kept + [b], cfg) == Ok(Seen(t));
    ChainRooted(kept + [b], cfg);
    RebuildBacks(t, cfg);
    CheckpointUnseen(Rebuild(t, cfg).value, Some(Checkpoint(b.header.number, Some(b.header.hash))), cfg.roots);
  }
}
