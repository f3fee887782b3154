/** Collection, storage and reorgs together: the node may serve another chain at every poll, and after
    each poll the stored tracked logs are those of the chain that it served last. */
module Following {
  import opened Wrappers
  import opened Chain
  import opened Views
  import opened Reorg
  import opened Discovery
  import opened Batches
  import opened Acceptance
  import opened Origins
  import opened CatchUp
  import Recovery
  import Runs
  import Store

  // ---------------------------------------------------------------- two chains that share a past

  /** Headers name their parents, so agreeing at a height is agreeing below it, and a block hash names
      the logs of its block. */
  ghost predicate Commits(v: Source, w: Source) {
    forall l | l in v.chain && l.block < |w.node| && w.node[l.block].hash == l.blockHash :: l in w.chain
  }

  ghost predicate Rival(v: Source, w: Source, world: iset<Header>) {
    Fixed(v) && Fixed(w) && Recovery.Hashed(world) && Recovery.ChainOf(v.node, world) && Recovery.ChainOf(w.node, world)
    && Commits(v, w) && Commits(w, v)
  }

  ghost predicate Shares(v: Source, w: Source, h: nat) {
    h < |v.node| && h < |w.node| && v.node[..h + 1] == w.node[..h + 1]
    && forall l: Log | l.block <= h :: l in v.chain <==> l in w.chain
  }

  lemma {:induction false} AgreedShares(v: Source, w: Source, h: nat, world: iset<Header>)
    requires Rival(v, w, world) && h < |v.node| && h < |w.node| && v.node[h].hash == w.node[h].hash
    ensures Shares(v, w, h)
  {
    Recovery.AgreeBelow(v.node, w.node, h, world);
    forall l: Log | l.block <= h ensures l in v.chain <==> l in w.chain {
      assert v.node[..h + 1][l.block] == w.node[..h + 1][l.block];
    }
  }

  // ---------------------------------------------------------------- what is tracked below a shared height

  lemma {:induction false} FlowShared(v: Source, w: Source, h: nat, roots: Roots, l: Log)
    requires Shares(v, w, h) && l.block <= h && Flow(w.chain, l, roots)
    ensures Flow(v.chain, l, roots)
  {
    var d :| d in w.chain && FactoryLaunch(d, roots) && OfLaunch(FoundIn(d), l);
    assert d in v.chain;
  }

  /** Being tracked is decided by the past. */
  lemma {:induction false} TrackedShared(v: Source, w: Source, h: nat, roots: Roots, l: Log)
    requires Shares(v, w, h) && l.block <= h && Tracked(w.chain, l, roots)
    ensures Tracked(v.chain, l, roots)
  {
    if Flow(w.chain, l, roots) {
      FlowShared(v, w, h, roots, l);
    } else if Settlement(w.chain, l, roots) {
      var g :| g in w.chain && Settles(g, l) && Flow(w.chain, g, roots);
      FlowShared(v, w, h, roots, g);
      assert g in v.chain;
    } else if FollowsDeployment(w.chain, l, roots) {
      var d :| d in w.chain && OfTreasury(d, l, roots);
      assert d in v.chain;
    }
  }

  /** The blocks that survive a rewind to a shared height. */
  function Kept(blocks: seq<Block>, h: nat): seq<Block> {
    blocks[..Cut(blocks, h + 1)]
  }

  lemma {:induction false} KeptOnBoth(blocks: seq<Block>, v: Source, w: Source, last: nat, h: nat)
    requires Legal(blocks) && AllOf(blocks, v, last) && Shares(v, w, h)
    ensures AllOf(Kept(blocks, h), w, h)
  {
    CutSplits(blocks, h + 1);
    forall i | 0 <= i < |Kept(blocks, h)| ensures BlockOf(blocks[i], w) && 0 < blocks[i].header.number <= h {
      var n := blocks[i].header.number;
      assert v.node[..h + 1][n] == w.node[..h + 1][n];
    }
  }

  lemma {:induction false} KeptHolds(blocks: seq<Block>, v: Source, last: nat, h: nat, l: Log)
    requires Legal(blocks) && AllOf(blocks, v, last) && InBlocks(blocks, l) && l.block <= h
    ensures InBlocks(Kept(blocks, h), l)
  {
    CutSplits(blocks, h + 1);
    var i :| 0 <= i < |blocks| && l in blocks[i].logs;
    assert Kept(blocks, h)[i] == blocks[i];
  }

  /** After the rewind everything tracked on the new chain up to the shared height is still stored. */
  lemma {:induction false} KeptCaughtUp(blocks: seq<Block>, v: Source, w: Source, last: nat, h: nat, roots: Roots)
    requires Legal(blocks) && AllOf(blocks, v, last) && CaughtUp(blocks, v, last, roots) && Shares(v, w, h) && h <= last
    ensures CaughtUp(Kept(blocks, h), w, h, roots)
  {
    forall l | l in w.chain && TrackedIn(w.chain, 1, h, roots, l) ensures InBlocks(Kept(blocks, h), l) {
      TrackedShared(v, w, h, roots, l);
      assert l in v.chain && TrackedIn(v.chain, 1, last, roots, l);
      KeptHolds(blocks, v, last, h, l);
    }
  }

  // ---------------------------------------------------------------- recover

  ghost function KeysOf(v: Source): Recovery.Keys {
    (h: Header) => iset l | l in v.chain && l.blockHash == h.hash :: l.Key()
  }

  lemma {:induction false} HoldingReplays(db: Store.State, blocks: seq<Block>, v: Source, last: nat, cfg: Config)
    requires Fixed(v) && Holding(db, blocks, v, last, cfg)
    ensures Recovery.Replays(db, blocks, KeysOf(v), cfg)
  {
    forall b | b in blocks ensures Recovery.Owns(b, KeysOf(v)) {
      var i :| 0 <= i < |blocks| && blocks[i] == b;
      assert BlockOf(blocks[i], v);
      forall l | l in b.logs ensures l.Key() in KeysOf(v)(b.header) {
        assert l in v.chain && l.blockHash == b.header.hash;
      }
    }
  }

  /** The height that recover finds is shared, or nothing survives. */
  lemma {:induction false} AgreedOn(db: Store.State, blocks: seq<Block>, v: Source, w: Source, last: nat,
                                    p: Recovery.Position,
                                    cfg: Config, world: iset<Header>)
    requires Rival(v, w, world) && Indexes(db, blocks, cfg) && AllOf(blocks, v, last)
      && Recovery.Agreement(db, last, w.node, p)
    ensures p.hash.Some? ==> Shares(v, w, p.block) && p.hash.value == w.node[p.block].hash
    ensures p.hash.None? ==> p.block == 0
  {
    if p.hash.Some? {
      Runs.CanonicalAt(db, blocks, cfg, p.block);
      var i :| 0 <= i < |blocks| && blocks[i].header.number == p.block && blocks[i].header.hash == w.node[p.block].hash;
      assert BlockOf(blocks[i], v);
      AgreedShares(v, w, p.block, world);
    }
  }

  lemma {:induction false} FirstBelow(blocks: seq<Block>, n: nat)
    requires Legal(blocks) && Cut(blocks, n) > 0
    ensures blocks != [] && blocks[0].header.number < n
  {
    CutSplits(blocks, n);
  }

  lemma {:induction false} NothingKept(blocks: seq<Block>, v: Source, last: nat)
    requires Legal(blocks) && AllOf(blocks, v, last)
    ensures Kept(blocks, 0) == []
  {
    if Cut(blocks, 1) > 0 {
      FirstBelow(blocks, 1);
      assert false;
    }
  }

  /** What survives recover is on the new chain and complete up to the height found. */
  lemma {:induction false} Carried(db: Store.State, blocks: seq<Block>, v: Source, w: Source, last: nat,
                                   p: Recovery.Position,
                                   cfg: Config, world: iset<Header>)
    requires Rival(v, w, world) && Indexes(db, blocks, cfg) && AllOf(blocks, v, last)
      && CaughtUp(blocks, v, last, cfg.roots)
    requires Recovery.Agreement(db, last, w.node, p)
    ensures AllOf(Kept(blocks, p.block), w, p.block) && CaughtUp(Kept(blocks, p.block), w, p.block, cfg.roots)
    ensures Stands(p, w, Kept(blocks, p.block))
  {
    AgreedOn(db, blocks, v, w, last, p, cfg, world);
    if p.hash.Some? {
      KeptOnBoth(blocks, v, w, last, p.block);
      KeptCaughtUp(blocks, v, w, last, p.block, cfg.roots);
    } else {
      NothingKept(blocks, v, last);
    }
  }

  /** The position names a block of this chain; without a hash nothing is stored. */
  ghost predicate Stands(at: Recovery.Position, w: Source, blocks: seq<Block>) {
    match at.hash
    case None => blocks == []
    case Some(h) => at.block < |w.node| && w.node[at.block].hash == h
  }

  /** recover on a chain switch. */
  method SwitchTo(ix: Recovery.Indexer, v: Source, w: Source, last: nat, ghost world: iset<Header>)
    returns (p: Recovery.Position)
    requires Rival(v, w, world) && last < |w.node| && Tracking(ix.store.db, ix.survivors, v, last, ix.store.cfg)
    modifies ix.store, ix`survivors
    ensures Recovery.Agreement(old(ix.store.db), last, w.node, p) && ix.survivors == Kept(old(ix.survivors), p.block)
    ensures Tracking(ix.store.db, ix.survivors, w, p.block, ix.store.cfg) && Stands(p, w, ix.survivors)
  {
    ghost var before, blocks := ix.store.db, ix.survivors;
    HoldingReplays(before, blocks, v, last, ix.store.cfg);
    p := ix.Recover(last, w.node, KeysOf(v));
    Carried(before, blocks, v, w, last, p, ix.store.cfg, world);
  }

  // ---------------------------------------------------------------- a poll, and any number of polls

  /** A position without a hash has nothing tracked before it. */
  ghost predicate Resumes(at: Recovery.Position, v: Source, w: Source, blocks: seq<Block>, roots: Roots) {
    Stands(at, v, blocks) && (at.hash.None? ==> CaughtUp([], w, at.block, roots))
  }

  /** A confirmed position is a position on the new chain. */
  lemma {:induction false} Confirmed(db: Store.State, blocks: seq<Block>, v: Source, w: Source, at: Recovery.Position,
                                     cfg: Config, world: iset<Header>)
    requires Rival(v, w, world) && Tracking(db, blocks, v, at.block, cfg) && Resumes(at, v, w, blocks, cfg.roots)
    requires at.hash.Some? ==> at.block < |w.node| && w.node[at.block].hash == at.hash.value
    ensures Tracking(db, blocks, w, at.block, cfg) && Stands(at, w, blocks)
  {
    if at.hash.Some? {
      AgreedShares(v, w, at.block, world);
      WholeKept(blocks, v, at.block);
      KeptOnBoth(blocks, v, w, at.block, at.block);
      KeptCaughtUp(blocks, v, w, at.block, at.block, cfg.roots);
    }
  }

  lemma {:induction false} WholeKept(blocks: seq<Block>, v: Source, last: nat)
    requires Legal(blocks) && AllOf(blocks, v, last)
    ensures Kept(blocks, last) == blocks
  {
    CutSplits(blocks, last + 1);
    assert blocks == [] || blocks[|blocks| - 1].header.number < last + 1;
  }

  /** The chains that the node may serve. */
  ghost predicate Rivals(chains: iset<Source>, world: iset<Header>) {
    forall v, w | v in chains && w in chains :: Rival(v, w, world)
  }

  /** The indexer's database tracks this chain up to the position. */
  ghost predicate InStep(ix: Recovery.Indexer, w: Source, at: Recovery.Position)
    reads ix, ix.store
  {
    forall last: nat | last == at.block :: Tracking(ix.store.db, ix.survivors, w, last, ix.store.cfg)
  }

  /** The check at the top of a poll. */
  method CheckHead(ix: Recovery.Indexer, v: Source, w: Source, at: Recovery.Position, ghost chains: iset<Source>,
                   ghost world: iset<Header>)
    returns (r: Option<Recovery.Position>)
    requires Rivals(chains, world) && v in chains && w in chains
    requires InStep(ix, v, at) && Resumes(at, v, w, ix.survivors, ix.store.cfg.roots)
    modifies ix.store, ix`survivors
    ensures r.None? <==> at.hash.Some? && |w.node| <= at.block
    ensures r.None? ==> ix.store.db == old(ix.store.db) && ix.survivors == old(ix.survivors)
    ensures r.Some? ==> r.value.block <= at.block && InStep(ix, w, r.value) && Stands(r.value, w, ix.survivors)
    ensures r.Some? && r.value.hash.None? ==> r.value == at || r.value.block == 0
  {
    assert Rival(v, w, world) && Tracking(ix.store.db, ix.survivors, v, at.block, ix.store.cfg);
    if at.hash.Some? && at.block >= |w.node| { return None; }
    if at.hash.Some? && w.node[at.block].hash != at.hash.value {
      var p := SwitchTo(ix, v, w, at.block, world);
      return Some(p);
    }
    Confirmed(ix.store.db, ix.survivors, v, w, at, ix.store.cfg, world);
    return Some(at);
  }

  /** Where the run resumes after reaching a height. */
  function Reached(p: Recovery.Position, w: Source, reached: nat): Recovery.Position
    requires reached < |w.node|
  {
    if reached == p.block then p else Recovery.Position(reached, Some(w.node[reached].hash))
  }

  /** The batches of one poll. */
  method CatchUpTo(ix: Recovery.Indexer, w: Source, p: Recovery.Position, target: nat, chunk: nat, genuine: Log -> bool,
                   ghost chains: iset<Source>, ghost world: iset<Header>)
    returns (r: Result<seq<Log>, CatchUpError>, next: Recovery.Position)
    requires Rivals(chains, world) && w in chains
    requires target < |w.node| && ix.batchSize > 0 && chunk > 0 && ix.store.cfg.roots.Configured()
    requires InStep(ix, w, p) && Stands(p, w, ix.survivors)
    modifies ix.store, ix`survivors
    ensures InStep(ix, w, next) && Stands(next, w, ix.survivors)
    ensures next.block >= p.block && (next.hash.None? ==> next == p) && (r.Ok? ==> next.block >= target)
    ensures next == p || p.block < next.block <= target
  {
    assert Rival(w, w, world) && Tracking(ix.store.db, ix.survivors, w, p.block, ix.store.cfg);
    next := p;
    if p.block >= target { return Ok([]), p; }
    ghost var grown;
    var reached;
    r, grown, reached := ToTarget(ix.store, w, p.block, target, ix.batchSize, chunk, genuine, ix.survivors);
    ix.survivors := grown;
    next := Reached(p, w, reached);
  }

  /** One poll on a chain that may not be the one followed so far: check the head, then collect and store
      up to the target. `from` is where the head check left the position; the poll stays there or moves
      within reach of the head, and leaves nothing in reach above it when it succeeds. However it ends, the
      stored blocks are blocks of the chain it saw, and every tracked log of that chain up to the height
      reached is stored. */
  method Follow(ix: Recovery.Indexer, v: Source, w: Source, at: Recovery.Position, chunk: nat, genuine: Log -> bool,
                ghost chains: iset<Source>, ghost world: iset<Header>)
    returns (r: Result<seq<Log>, CatchUpError>, next: Recovery.Position, saw: Source, ghost from: Recovery.Position)
    requires Rivals(chains, world) && v in chains && w in chains
    requires |w.node| > 0 && ix.batchSize > 0 && chunk > 0 && ix.store.cfg.roots.Configured()
    requires InStep(ix, v, at) && Resumes(at, v, w, ix.survivors, ix.store.cfg.roots)
    modifies ix.store, ix`survivors
    ensures saw == if at.hash.Some? && |w.node| <= at.block then v else w
    ensures InStep(ix, saw, next) && Stands(next, saw, ix.survivors)
    ensures next.hash.None? ==> next == at || next.block == 0
    ensures from.block <= at.block && (next == from || ix.InReach(next.block, |w.node| - 1))
    ensures r.Ok? ==> saw == w && ix.Reaches(next.block, |w.node| - 1)
  {
    var checked := CheckHead(ix, v, w, at, chains, world);
    if checked.None? { return Err(NotFound), at, v, at; }
    saw, from := w, checked.value;
    r, next := CatchUpTo(ix, w, checked.value, ix.Target(|w.node| - 1), chunk, genuine, chains, world);
  }

  /** Nothing tracked lies up to this height on any of the chains. */
  ghost predicate Untracked(block: nat, chains: iset<Source>, roots: Roots) {
    forall w | w in chains :: CaughtUp([], w, block, roots)
  }

  /** Any number of polls, each on whichever chain the node serves then, failed ones included: the stored
      blocks are blocks of the chain seen last, and every tracked log of it up to the position is stored. */
  method FollowAll(ix: Recovery.Indexer, v: Source, served: nat -> Source, polls: nat, at: Recovery.Position,
                   chunk: nat, genuine: Log -> bool,
                   ghost chains: iset<Source>, ghost world: iset<Header>)
    returns (next: Recovery.Position, saw: Source)
    requires Rivals(chains, world) && v in chains && forall i: nat :: served(i) in chains && |served(i).node| > 0
    requires ix.batchSize > 0 && chunk > 0 && ix.store.cfg.roots.Configured()
    requires InStep(ix, v, at) && Stands(at, v, ix.survivors)
    requires at.hash.None? ==> Untracked(at.block, chains, ix.store.cfg.roots)
    modifies ix.store, ix`survivors
    ensures InStep(ix, saw, next) && Stands(next, saw, ix.survivors)
    ensures saw == v || exists i | 0 <= i < polls :: saw == served(i)
  {
    next, saw := at, v;
    for i := 0 to polls
      invariant InStep(ix, saw, next) && Stands(next, saw, ix.survivors) && saw in chains
      invariant next.hash.None? ==> Untracked(next.block, chains, ix.store.cfg.roots)
      invariant saw == v || exists j | 0 <= j < i :: saw == served(j)
    {
      var outcome;
      ghost var from;
      outcome, next, saw, from := Follow(ix, saw, served(i), next, chunk, genuine, chains, world);
    }
  }
}
