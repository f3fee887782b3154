/** The indexer's Run loop and recover against a node that may switch chains between batches.
    Only range boundaries and event-bearing blocks are stored, so stored heights are sparse; the
    parent check at each batch start still ties every stored block to the chain of the last one.
    Every transaction Run makes is therefore a legal step, and its database is at all times what a
    fresh replay of the surviving blocks would be. */
module Recovery {
  import opened Wrappers
  import opened Chain
  import opened Tables
  import opened Views
  import Reorg
  import Runs
  import Store

  /** What the node serves by height. */
  type Node = seq<Header>

  ghost predicate Linked(c: Node) {
    forall i | 0 <= i < |c| :: c[i].number == i && (i > 0 ==> c[i].parent == c[i - 1].hash)
  }

  /** Block hashing is injective on the headers that ever occur. */
  ghost predicate Hashed(world: iset<Header>) {
    forall a, b | a in world && b in world && a.hash == b.hash :: a == b
  }

  ghost predicate ChainOf(c: Node, world: iset<Header>) {
    Linked(c) && forall i | 0 <= i < |c| :: c[i] in world
  }

  /** Hash chains agreeing at one height agree below it. */
  lemma {:induction false} AgreeBelow(a: Node, b: Node, n: nat, world: iset<Header>)
    requires Hashed(world) && ChainOf(a, world) && ChainOf(b, world)
    requires n < |a| && n < |b| && a[n].hash == b[n].hash
    ensures a[..n + 1] == b[..n + 1]
  {
    assert a[n] == b[n];
    if n > 0 {
      AgreeBelow(a, b, n - 1, world);
      assert a[..n + 1] == a[..n] + [a[n]] && b[..n + 1] == b[..n] + [b[n]];
    }
  }

  // ---------------------------------------------------------------- what the checkpoint is worth

  /** `last` and `lastHash`: the empty hash is `None`. */
  datatype Position = Position(block: nat, hash: Option<Hash>)

  function Rows(s: Store.State): Facts<Hash, BlockInfo> {
    Canonical(s.blocks)
  }

  /** Every canonical block row above height 0 lies on this chain. */
  ghost predicate On(rows: Facts<Hash, BlockInfo>, c: Node) {
    forall h | h in rows && rows[h].block > 0 ::
      rows[h].hash == h && rows[h].block < |c| && rows[h] == BlockFact(c[rows[h].block])
  }

  ghost predicate NoRows(rows: Facts<Hash, BlockInfo>) {
    forall h | h in rows :: rows[h].block == 0
  }

  /** The position names the top of the one chain that carries all rows; without a hash there are none. */
  ghost predicate TopOf(rows: Facts<Hash, BlockInfo>, at: Position, c: Node) {
    On(rows, c) && (forall h | h in rows :: rows[h].block <= at.block)
    && match at.hash
       case None => NoRows(rows)
       case Some(h) => at.block < |c| && c[at.block].hash == h
  }

  ghost predicate Anchored(rows: Facts<Hash, BlockInfo>, at: Position, world: iset<Header>) {
    exists c :: ChainOf(c, world) && TopOf(rows, at, c)
  }

  /** Checkpoint: a missing row reads as height 0 without a hash. */
  function CheckpointOf(s: Store.State): Position {
    match s.checkpoint
    case None => Position(0, None)
    case Some(c) => Position(c.block, c.hash)
  }

  ghost predicate Durable(s: Store.State, world: iset<Header>) {
    Anchored(Rows(s), CheckpointOf(s), world)
  }

  /** The next height to read is the start block, if the checkpoint lies below it. */
  function InitialCheckpoint(at: Position, start: nat): (p: Position)
    ensures p.block + 1 == (if at.block < start then start else at.block + 1)
    ensures p.hash == (if at.block < start then None else at.hash)
  {
    if start > 0 && at.block < start then Position(start - 1, None) else at
  }

  /** When the start block may move the position without losing the checkpoint's promise. */
  ghost predicate StartsInTime(s: Store.State, start: nat) {
    start == 0 || start <= CheckpointOf(s).block || NoRows(Rows(s))
  }

  lemma {:induction false} StartAnchored(s: Store.State, start: nat, world: iset<Header>)
    requires Durable(s, world) && StartsInTime(s, start)
    ensures Anchored(Rows(s), InitialCheckpoint(CheckpointOf(s), start), world)
  {
    var c :| ChainOf(c, world) && TopOf(Rows(s), CheckpointOf(s), c);
    assert TopOf(Rows(s), InitialCheckpoint(CheckpointOf(s), start), c);
  }

  // ---------------------------------------------------------------- what Apply and Rewind do to block rows

  lemma {:induction false} InsertedBlocks(s: Store.State, b: Block, n: nat, cfg: Config)
    requires n <= |b.logs| && Store.LogsInserted(s, b, n, cfg).Ok?
    ensures Store.LogsInserted(s, b, n, cfg).value.blocks == s.blocks
  {
    if n > 0 { InsertedBlocks(s, b, n - 1, cfg); }
  }

  /** A block replaces its rivals' rows and becomes the checkpoint. */
  ghost predicate Raised(s: Store.State, t: Store.State, b: Header) {
    Rows(t) == WithoutRivals(Rows(s), b.number, b.hash)[b.hash := BlockFact(b)]
    && CheckpointOf(t) == Position(b.number, Some(b.hash))
  }

  lemma {:induction false} AppliedRows(s: Store.State, t: Store.State, b: Block, cfg: Config)
    requires Store.Applied(s, b, cfg) == Ok(t)
    ensures Raised(s, t, b.header)
  {
    InsertedBlocks(Store.BlockOpened(s, b.header), b, |b.logs|, cfg);
    CanonicalOrphanRivals(s.blocks, b.header.number, b.header.hash);
    CanonicalUpsert(OrphanRivals(s.blocks, b.header.number, b.header.hash), b.header.hash, BlockFact(b.header));
  }

  /** A rewind keeps the rows below a height and moves an existing checkpoint below it. */
  ghost predicate Lowered(s: Store.State, t: Store.State, from: nat) {
    Rows(t) == Below(Rows(s), from)
    && if s.checkpoint.None? then t.checkpoint.None?
       else t.checkpoint.Some? && t.checkpoint == Store.RewoundCheckpoint(t, from)
  }

  lemma {:induction false} RewoundRows(s: Store.State, from: nat, cfg: Config)
    requires Store.Rewound(s, from, cfg).Ok?
    ensures Lowered(s, Store.Rewound(s, from, cfg).value, from)
  {
    CanonicalOrphanFrom(s.blocks, from);
  }

  /** The stored hash at a height is the node's. */
  predicate Agrees(s: Store.State, node: Node, n: nat) {
    n < |node| && Store.CanonicalHash(s.blocks, n) == Some(node[n].hash)
  }

  /** The node's chain carries every row up to a height where the position's chain agrees with it. */
  lemma {:induction false} MoveOnto(rows: Facts<Hash, BlockInfo>, c: Node, node: Node, n: nat, world: iset<Header>)
    requires Hashed(world) && ChainOf(c, world) && ChainOf(node, world)
    requires n < |c| && n < |node| && c[n].hash == node[n].hash
    requires On(rows, c) && forall h | h in rows :: rows[h].block <= n
    ensures On(rows, node)
  {
    AgreeBelow(c, node, n, world);
    forall h | h in rows && rows[h].block > 0
      ensures rows[h].block < |node| && rows[h] == BlockFact(node[rows[h].block])
    {
      var m := rows[h].block;
      assert c[..n + 1][m] == c[m] && node[..n + 1][m] == node[m];
    }
  }

  /** The node's block n is the next height, or follows rows already on the node. */
  ghost predicate Follows(at: Position, c: Node, node: Node, n: nat) {
    at.block < n < |node| && (c == node || n == at.block + 1)
    && (n == at.block + 1 && at.block > 0 && at.hash.Some? ==> node[n].parent == at.hash.value)
  }

  /** Then all rows lie on the node's chain already, */
  lemma {:induction false} RowsOnNode(rows: Facts<Hash, BlockInfo>, at: Position, c: Node, node: Node, n: nat,
                                      world: iset<Header>)
    requires Hashed(world) && ChainOf(c, world) && ChainOf(node, world)
    requires TopOf(rows, at, c) && Follows(at, c, node, n)
    ensures On(rows, node)
  {
    if c != node && at.block > 0 && at.hash.Some? { MoveOnto(rows, c, node, at.block, world); }
  }

  /** and so does the block that is applied. */
  lemma {:induction false} ApplyMovesUp(s: Store.State, t: Store.State, at: Position, node: Node, n: nat)
    requires On(Rows(s), node) && (forall h | h in Rows(s) :: Rows(s)[h].block <= at.block)
    requires Linked(node) && at.block < n < |node| && Raised(s, t, node[n])
    ensures TopOf(Rows(t), Position(n, Some(node[n].hash)), node) && CheckpointOf(t) == Position(n, Some(node[n].hash))
  {
  }

  /** Where recover lands, every remaining row lies on the node's chain. */
  lemma {:induction false} RewindLands(s: Store.State, t: Store.State, at: Position, c: Node, node: Node, n: nat,
                                       world: iset<Header>)
    requires Hashed(world) && ChainOf(c, world) && ChainOf(node, world) && |node| > 0
    requires TopOf(Rows(s), at, c) && Durable(s, world) && Lowered(s, t, n + 1)
    requires n == 0 || Agrees(s, node, n)
    ensures TopOf(Rows(t), Position(n, if Agrees(s, node, n) then Some(node[n].hash) else None), node)
    ensures Durable(t, world)
  {
    if n > 0 {
      var h := node[n].hash;
      assert h in Rows(s) && Rows(s)[h].block == n;
      MoveOnto(Rows(t), c, node, n, world);
      assert h in Rows(t);
      SameHash(s, t, node, n);
    }
    var p := Position(n, if Agrees(s, node, n) then Some(node[n].hash) else None);
    assert TopOf(Rows(t), p, node);
    if s.checkpoint.None? {
      var d :| ChainOf(d, world) && TopOf(Rows(s), CheckpointOf(s), d);
      assert NoRows(Rows(s));
    }
    assert TopOf(Rows(t), CheckpointOf(t), node);
  }

  /** A position whose hash the node confirms. */
  lemma {:induction false} ConfirmedMoves(rows: Facts<Hash, BlockInfo>, at: Position, node: Node, world: iset<Header>)
    requires Hashed(world) && ChainOf(node, world) && Anchored(rows, at, world)
    requires at.hash.Some? ==> at.block < |node| && node[at.block].hash == at.hash.value
    ensures TopOf(rows, at, node)
  {
    var c :| ChainOf(c, world) && TopOf(rows, at, c);
    if at.hash.Some? { MoveOnto(rows, c, node, at.block, world); }
  }

  /** The position's hash is the node's, or there is none to check. */
  predicate Confirmed(at: Position, node: Node) {
    at.hash.None? || (at.block < |node| && node[at.block].hash == at.hash.value)
  }

  /** Whatever chain the node serves, passing the head check puts every stored row on it. */
  ghost predicate Vouches(s: Store.State, at: Position) {
    forall world: iset<Header>, node | Hashed(world) && ChainOf(node, world) && Durable(s, world)
      && Confirmed(at, node) ::
      On(Rows(s), node)
  }

  /** A start block beyond the checkpoint drops the hash that the head check compares; the check still
      vouches for the rows exactly when that does not happen or nothing is stored yet. */
  lemma {:induction false} InitialCheckpointIff(s: Store.State, start: nat, world: iset<Header>)
    requires Hashed(world) && Durable(s, world)
    ensures Vouches(s, InitialCheckpoint(CheckpointOf(s), start)) <==> StartsInTime(s, start)
  {
    var at := InitialCheckpoint(CheckpointOf(s), start);
    if StartsInTime(s, start) {
      forall w: iset<Header>, node | Hashed(w) && ChainOf(node, w) && Durable(s, w) && Confirmed(at, node)
        ensures On(Rows(s), node)
      {
        StartAnchored(s, start, w);
        ConfirmedMoves(Rows(s), at, node, w);
      }
    } else {
      var node, w := OtherChain(s, 0, world);
      var h :| h in Rows(s) && Rows(s)[h].block > 0;
      assert Confirmed(at, node) && !On(Rows(s), node);
    }
  }

  lemma {:induction false} BoundAbove(hs: set<Hash>) returns (k: nat)
    ensures k > 0 && forall h | h in hs :: h < k
  {
    if hs == {} { return 1; }
    var g :| g in hs;
    var m := BoundAbove(hs - {g});
    k := if m > g then m else g + 1;
    forall h | h in hs ensures h < k { assert h == g || h in hs - {g}; }
  }

  /** Next to the chain that carries the rows there is another, of any length, that shares no hash with them. */
  lemma {:induction false} OtherChain(s: Store.State, n: nat, world: iset<Header>) returns (node: Node, w: iset<Header>)
    requires Hashed(world) && Durable(s, world)
    ensures Hashed(w) && ChainOf(node, w) && Durable(s, w) && |node| == n + 1
    ensures forall i | 0 <= i <= n :: node[i].hash !in Rows(s)
  {
    var c :| ChainOf(c, world) && TopOf(Rows(s), CheckpointOf(s), c);
    var used := set x: Header | x in c :: x.hash;
    var k := BoundAbove(Rows(s).Keys + used);
    node := seq(n + 1, i requires 0 <= i => Header(i, k + i, k + i - 1, 0));
    w := iset h: Header | h in c || h in node;
    assert ChainOf(c, w) && ChainOf(node, w);
    forall x: Header | x in c ensures x.hash < k && x in world { assert x.hash in used; }
    HashedApart(c, node, k, world, w);
  }

  lemma {:induction false} HashedApart(c: Node, node: Node, k: nat, world: iset<Header>, w: iset<Header>)
    requires Hashed(world) && forall x: Header | x in c :: x.hash < k && x in world
    requires forall x: Header | x in node :: x.hash == k + x.number && x.parent + 1 == x.hash && x.time == 0
    requires forall x :: x in w <==> x in c || x in node
    ensures Hashed(w)
  {
    forall a, b | a in w && b in w && a.hash == b.hash ensures a == b {
      if a in node { assert b !in c; } else { assert b in c; }
    }
  }

  lemma {:induction false} SameHash(s: Store.State, t: Store.State, node: Node, n: nat)
    requires 0 < n < |node| && On(Rows(t), node) && node[n].hash in Rows(t) && Rows(t)[node[n].hash].block == n
    ensures Store.CanonicalHash(t.blocks, n) == Some(node[n].hash)
  {
    var h := node[n].hash;
    assert t.blocks[h].canonical && t.blocks[h].block == n;
    var r := Store.CanonicalHash(t.blocks, n);
    assert r.value in Rows(t) && Rows(t)[r.value].block == n;
  }

  /** recover's outcome: the highest stored height up to `last` that agrees with the node, or 0,
      and a rewind to just above it. */
  ghost predicate Recovered(s: Store.State, t: Store.State, last: nat, node: Node, p: Position) {
    Agreement(s, last, node, p) && Lowered(s, t, p.block + 1)
  }

  ghost predicate Agreement(s: Store.State, last: nat, node: Node, p: Position) {
    p.block <= last && (p.block == 0 || Agrees(s, node, p.block))
    && (forall m: nat | p.block < m <= last :: !Agrees(s, node, m))
    && p.hash == (if Agrees(s, node, p.block) then Some(node[p.block].hash) else None)
  }

  lemma {:induction false} RecoverLands(s: Store.State, t: Store.State, at: Position, node: Node, p: Position,
                                        world: iset<Header>)
    requires Hashed(world) && ChainOf(node, world) && |node| > 0
    requires Anchored(Rows(s), at, world) && Durable(s, world)
    requires Recovered(s, t, at.block, node, p)
    ensures TopOf(Rows(t), p, node) && Durable(t, world)
  {
    var c :| ChainOf(c, world) && TopOf(Rows(s), at, c);
    RewindLands(s, t, at, c, node, p.block, world);
  }

  // ---------------------------------------------------------------- legal steps

  /** The log identities of a block, a fact about the block alone. */
  type Keys = Header -> iset<LogKey>

  /** No two blocks of one chain share a (transaction, log index). */
  ghost predicate Apart(world: iset<Header>, keys: Keys) {
    forall c | ChainOf(c, world) :: KeysApart(c, keys)
  }

  ghost predicate KeysApart(c: Node, keys: Keys) {
    forall i, j | 0 <= i < j < |c| :: keys(c[i]) !! keys(c[j])
  }

  ghost predicate Owns(b: Block, keys: Keys) {
    b.header.number > 0 && forall l | l in b.logs :: l.Key() in keys(b.header)
  }

  /** The database is a faithful index of these blocks, each with its own logs. */
  ghost predicate Replays(db: Store.State, survivors: seq<Block>, keys: Keys, cfg: Config) {
    Runs.Faithful(Runs.Index(db, survivors), cfg) && forall b | b in survivors :: Owns(b, keys)
  }

  /** Survivors are stored, so they lie on the chain that carries the rows. */
  lemma {:induction false} SurvivorsOn(db: Store.State, survivors: seq<Block>, keys: Keys, cfg: Config, at: Position,
                                       c: Node)
    requires Replays(db, survivors, keys, cfg) && On(Rows(db), c) && forall h | h in Rows(db) ::
      Rows(db)[h].block <= at.block
    ensures forall i | 0 <= i < |survivors| :: OnAt(survivors[i].header, c, at)
  {
    Runs.BlocksListed(survivors, cfg);
    forall i | 0 <= i < |survivors| ensures OnAt(survivors[i].header, c, at) {
      assert survivors[i] in survivors;
      var h := survivors[i].header.hash;
      assert h in Rows(db) && Rows(db)[h] == BlockFact(survivors[i].header);
      assert c[survivors[i].header.number] == survivors[i].header;
    }
  }

  ghost predicate OnAt(h: Header, c: Node, at: Position) {
    h.number <= at.block && h.number < |c| && c[h.number] == h
  }

  lemma {:induction false} LegalOnNode(survivors: seq<Block>, b: Block, at: Position, node: Node, keys: Keys,
                                       world: iset<Header>)
    requires Hashed(world) && Apart(world, keys) && ChainOf(node, world) && Reorg.Legal(survivors)
    requires forall i | 0 <= i < |survivors| :: OnAt(survivors[i].header, node, at) && Owns(survivors[i], keys)
    requires at.block < b.header.number < |node| && b.header == node[b.header.number] && Owns(b, keys)
    ensures Reorg.Extends(survivors, b) && Runs.Surviving(survivors, Runs.ApplyStep(b)) == survivors + [b]
  {
    forall i | 0 <= i < |survivors|
      ensures survivors[i].header.number < b.header.number && survivors[i].header.hash != b.header.hash
      ensures Reorg.Disjoint(survivors[i], b)
    {
      var a := survivors[i];
      assert OnAt(a.header, node, at) && Owns(a, keys);
      assert node[a.header.number] in world && node[b.header.number] in world;
      assert keys(node[a.header.number]) !! keys(node[b.header.number]);
      forall k | Reorg.HasKey(a, k) ensures !Reorg.HasKey(b, k) {
        assert k in keys(a.header);
      }
    }
    Runs.ExtendsAbove(survivors, b);
  }

  lemma {:induction false} ReplaysMore(s: Store.State, t: Store.State, survivors: seq<Block>, b: Block, keys: Keys,
                                       cfg: Config)
    requires Replays(s, survivors, keys, cfg) && Owns(b, keys)
    requires Reorg.Extends(survivors, b) && Store.Applied(s, b, cfg) == Ok(t)
    ensures Runs.Faithful(Runs.Index(t, Runs.Surviving(survivors, Runs.ApplyStep(b))), cfg)
    ensures forall a | a in survivors + [b] :: Owns(a, keys)
  {
    Runs.AppliedFaithful(Runs.Index(s, survivors), b, cfg);
  }

  lemma {:induction false} ReplaysLess(s: Store.State, t: Store.State, survivors: seq<Block>, from: nat, keys: Keys,
                                       cfg: Config)
    requires Replays(s, survivors, keys, cfg) && Store.Rewound(s, from, cfg) == Ok(t)
    ensures Replays(t, Runs.Surviving(survivors, Runs.RewindStep(from)), keys, cfg)
  {
    Runs.RewoundFaithful(Runs.Index(s, survivors), from, cfg);
  }

  /** Applying the node's next block is a legal step once all rows lie on the node's chain. */
  lemma {:induction false} NextIsLegal(s: Store.State, survivors: seq<Block>, at: Position, b: Block, node: Node,
                                       keys: Keys, cfg: Config, world: iset<Header>)
    requires Hashed(world) && Apart(world, keys) && ChainOf(node, world)
    requires Replays(s, survivors, keys, cfg) && Owns(b, keys)
    requires On(Rows(s), node) && forall h | h in Rows(s) :: Rows(s)[h].block <= at.block
    requires at.block < b.header.number < |node| && b.header == node[b.header.number]
    ensures Reorg.Extends(survivors, b) && Runs.Surviving(survivors, Runs.ApplyStep(b)) == survivors + [b]
  {
    SurvivorsOn(s, survivors, keys, cfg, at, node);
    assert forall i | 0 <= i < |survivors| :: survivors[i] in survivors;
    LegalOnNode(survivors, b, at, node, keys, world);
  }

  // ---------------------------------------------------------------- the indexer

  datatype RunError = NotFound | ParentMismatch(block: nat) | Refused(error: ApplyError)

  /** What the RPC answers during one batch: the node's chain and the collected logs by height. */
  datatype Moment = Moment(node: Node, logs: map<nat, seq<Log>>, context: Context)

  ghost predicate WellFormed(m: Moment, world: iset<Header>, keys: Keys) {
    ChainOf(m.node, world)
    && forall n | n in m.logs && n < |m.node| :: forall l | l in m.logs[n] :: l.Key() in keys(m.node[n])
  }

  /** The node's block at a height with the logs collected for it. */
  function BlockAt(m: Moment, n: nat): Block
    requires n < |m.node|
  {
    Block(m.node[n], if n in m.logs then m.logs[n] else [], m.context)
  }

  /** A batch stores its first, its last and the event-bearing blocks. */
  predicate Boundary(m: Moment, from: nat, n: nat, end: nat) {
    n == from || n == end || n in m.logs
  }

  /** Those below a height, ascending. */
  function Stored(m: Moment, from: nat, n: nat, end: nat): seq<Block> {
    if n <= from then []
    else Stored(m, from, n - 1, end)
         + if Boundary(m, from, n - 1, end) && n - 1 < |m.node| then [BlockAt(m, n - 1)] else []
  }

  /** All of them. */
  function BatchBlocks(m: Moment, from: nat, end: nat): seq<Block> {
    Stored(m, from, end + 1, end)
  }

  /** How far a batch came: the database, the position, the surviving blocks, and why it stopped. */
  datatype Progress = Progress(db: Store.State, at: Position, survivors: seq<Block>, stop: Option<RunError>)

  /** What a store answers to a block. A batch is defined over any store; the indexer's is Store.Applied. */
  type Writer = (Store.State, Block) -> Result<Store.State, ApplyError>

  ghost predicate StoreAnswers(write: Writer, cfg: Config) {
    forall s, b {:trigger Store.Applied(s, b, cfg)} :: write(s, b) == Store.Applied(s, b, cfg)
  }

  lemma {:induction false} WriterOf(cfg: Config) returns (write: Writer)
    ensures StoreAnswers(write, cfg)
  {
    write := (s, b) => Store.Applied(s, b, cfg);
  }

  /** One height: the node must have it, it must build on the position, and the store must take it. */
  function Advanced(p: Progress, n: nat, m: Moment, write: Writer): Progress {
    if n >= |m.node| then p.(stop := Some(NotFound))
    else if n == p.at.block + 1 && p.at.block > 0 && p.at.hash.Some? && m.node[n].parent != p.at.hash.value then
      p.(stop := Some(ParentMismatch(n)))
    else
      match write(p.db, BlockAt(m, n))
      case Err(e) => p.(stop := Some(Refused(e)))
      case Ok(t) => Progress(t, Position(n, Some(m.node[n].hash)), p.survivors + [BlockAt(m, n)], None)
  }

  /** One height of a batch, unless it has stopped already. */
  function Next(q: Progress, n: nat, m: Moment, from: nat, end: nat, write: Writer): Progress {
    if q.stop.None? && Boundary(m, from, n, end) then Advanced(q, n, m, write) else q
  }

  /** The heights of a batch below n. */
  function Batched(p: Progress, m: Moment, n: nat, end: nat, write: Writer): Progress {
    if n <= p.at.block + 1 then p
    else Next(Batched(p, m, n - 1, end, write), n - 1, m, p.at.block + 1, end, write)
  }

  lemma {:induction false} BatchInduction(p: Progress, m: Moment, n: nat, end: nat, write: Writer,
                                          inv: (Progress, nat) -> bool)
    requires p.at.block < n && inv(p, p.at.block + 1)
    requires forall q, k: nat | p.at.block < k < n && inv(q, k) :: inv(Next(q, k, m, p.at.block + 1, end, write), k + 1)
    ensures inv(Batched(p, m, n, end, write), n)
  {
    if n > p.at.block + 1 { BatchInduction(p, m, n - 1, end, write, inv); }
  }

  lemma {:induction false} StopsForGood(p: Progress, m: Moment, n: nat, end: nat, k: nat, write: Writer)
    requires Batched(p, m, n, end, write).stop.Some? && p.at.block + 1 <= n <= k
    ensures Batched(p, m, k, end, write) == Batched(p, m, n, end, write)
  {
    if k > n { StopsForGood(p, m, n, end, k - 1, write); }
  }

  /** A batch that is not stopped stores exactly its boundaries and event-bearing blocks, in order. */
  lemma {:induction false} BatchStores(p: Progress, m: Moment, n: nat, end: nat, write: Writer)
    requires p.stop.None?
    ensures var q := Batched(p, m, n, end, write);
            q.stop.None? ==> q.survivors == p.survivors + Stored(m, p.at.block + 1, n, end)
  {
    if n > p.at.block + 1 {
      BatchStores(p, m, n - 1, end, write);
    }
  }

  /** The position only rises, and every new block lies above where it was and not above where it is. */
  ghost predicate Climbs(p: Progress, q: Progress) {
    p.at.block <= q.at.block
    && forall b | b in q.survivors :: b in p.survivors || p.at.block < b.header.number <= q.at.block
  }

  lemma {:induction false} ClimbsOn(p: Progress, q: Progress, r: Progress)
    requires Climbs(p, q) && Climbs(q, r)
    ensures Climbs(p, r)
  {
    forall b | b in r.survivors ensures b in p.survivors || p.at.block < b.header.number <= r.at.block {
      assert b in q.survivors || q.at.block < b.header.number <= r.at.block;
    }
  }

  lemma {:induction false} AdvanceClimbs(q: Progress, n: nat, m: Moment, write: Writer)
    requires Linked(m.node) && q.at.block < n
    ensures Climbs(q, Advanced(q, n, m, write)) && Advanced(q, n, m, write).at.block <= n
  {
  }

  /** A batch does not leave its range. */
  lemma {:induction false} BatchClimbs(p: Progress, m: Moment, n: nat, end: nat, write: Writer)
    requires Linked(m.node) && p.at.block < n
    ensures var q := Batched(p, m, n, end, write);
      Climbs(p, q) && q.at.block < n
  {
    if n > p.at.block + 1 {
      var q := Batched(p, m, n - 1, end, write);
      BatchClimbs(p, m, n - 1, end, write);
      if q.stop.None? && Boundary(m, p.at.block + 1, n - 1, end) {
        AdvanceClimbs(q, n - 1, m, write);
        ClimbsOn(p, q, Advanced(q, n - 1, m, write));
      }
    }
  }

  lemma {:induction false} WholeClimbs(p: Progress, q: Progress, m: Moment, end: nat, write: Writer)
    requires Linked(m.node) && p.at.block <= end && q == WholeBatch(p, m, end, write)
    ensures Climbs(p, q) && q.at.block <= end
  {
    BatchClimbs(p, m, end + 1, end, write);
  }

  /** No height strictly between these bears an event. */
  ghost predicate Eventless(m: Moment, low: nat, high: nat) {
    forall k: nat | low < k < high :: k !in m.logs
  }

  /** The store refuses the node's block at the height that comes next in this state. */
  ghost predicate RefusedAt(db: Store.State, at: Position, n: nat, m: Moment, e: ApplyError, cfg: Config) {
    at.block < n < |m.node| && Eventless(m, at.block, n) && Store.Applied(db, BlockAt(m, n), cfg) == Err(e)
  }

  ghost predicate Refuses(db: Store.State, at: Position, to: nat, m: Moment, e: ApplyError, cfg: Config) {
    exists n: nat :: n <= to && RefusedAt(db, at, n, m, e, cfg)
  }

  /** What is lost otherwise: the position has no hash, so no parent is compared, and if the store takes
      the first block, rows that the node never served stay canonical. */
  lemma {:induction false} LateStartStrands(s: Store.State, start: nat, m: Moment, survivors: seq<Block>, write: Writer,
                                            cfg: Config, world: iset<Header>)
    requires Durable(s, world) && StoreAnswers(write, cfg) && !StartsInTime(s, start) && Linked(m.node)
      && start < |m.node|
    requires forall i | 0 <= i < |m.node| :: m.node[i].hash !in Rows(s)
    ensures var at := InitialCheckpoint(CheckpointOf(s), start);
      var q := Advanced(Progress(s, at, survivors, None), start, m, write);
      Confirmed(at, m.node) && (q.stop.Some? ==> q.stop.value.Refused?) && (q.stop.None? ==> !On(Rows(q.db), m.node))
  {
    var at := InitialCheckpoint(CheckpointOf(s), start);
    var q := Advanced(Progress(s, at, survivors, None), start, m, write);
    if q.stop.None? {
      assert Store.Applied(s, BlockAt(m, start), cfg) == Ok(q.db);
      AppliedRows(s, q.db, BlockAt(m, start), cfg);
      RivalStays(s, q.db, start, m);
    }
  }

  lemma {:induction false} RivalStays(s: Store.State, t: Store.State, start: nat, m: Moment)
    requires Linked(m.node) && start < |m.node| && Raised(s, t, m.node[start])
    requires (exists h :: h in Rows(s) && 0 < Rows(s)[h].block < start) && forall i | 0 <= i < |m.node| ::
      m.node[i].hash !in Rows(s)
    ensures !On(Rows(t), m.node)
  {
    var h :| h in Rows(s) && 0 < Rows(s)[h].block < start;
    assert m.node[start].hash !in Rows(s);
    assert h in Rows(t) && Rows(t)[h] == Rows(s)[h];
  }

  /** Why Run stops: the node lacks a height up to `to`, the next block does not build on the
      position, or the store refuses the block that comes next. */
  ghost predicate Blocked(e: RunError, db: Store.State, at: Position, to: nat, m: Moment, cfg: Config) {
    match e
    case NotFound => |m.node| <= to
    case ParentMismatch(n) =>
      n == at.block + 1 && at.block > 0 && n < |m.node| && at.hash.Some? && m.node[n].parent != at.hash.value
    case Refused(refusal) => Refuses(db, at, to, m, refusal, cfg)
  }

  ghost predicate BlockedBelow(e: RunError, db: Store.State, at: Position, high: nat, m: Moment, cfg: Config) {
    exists to: nat :: to <= high && Blocked(e, db, at, to, m, cfg)
  }

  ghost predicate Stops(q: Progress, to: nat, m: Moment, cfg: Config) {
    q.stop.Some? ==> Blocked(q.stop.value, q.db, q.at, to, m, cfg)
  }

  lemma {:induction false} StopsBelow(q: Progress, to: nat, high: nat, m: Moment, cfg: Config)
    requires Stops(q, to, m, cfg) && q.stop.Some? && to <= high
    ensures BlockedBelow(q.stop.value, q.db, q.at, high, m, cfg)
  {
  }

  lemma {:induction false} AdvanceStops(p: Progress, n: nat, to: nat, m: Moment, write: Writer, cfg: Config)
    requires p.stop.None? && p.at.block < n <= to && Eventless(m, p.at.block, n) && StoreAnswers(write, cfg)
    ensures Stops(Advanced(p, n, m, write), to, m, cfg)
  {
    var q := Advanced(p, n, m, write);
    if n < |m.node| && q.stop.Some? && q.stop.value.Refused? {
      assert Store.Applied(p.db, BlockAt(m, n), cfg) == Err(q.stop.value.error);
      assert RefusedAt(q.db, q.at, n, m, q.stop.value.error, cfg);
    }
  }

  lemma {:induction false} AdvanceReaches(p: Progress, n: nat, m: Moment, write: Writer)
    requires p.stop.None? && p.at.block < n
    ensures var q := Advanced(p, n, m, write); q.stop.None? ==> q.at.block == n
  {
  }

  /** A batch stops only for such a reason, in the state that it reached; until then it passes over no event. */
  lemma {:induction false} BatchStops(p: Progress, m: Moment, n: nat, end: nat, write: Writer, cfg: Config)
    requires p.stop.None? && p.at.block < n <= end + 1 && StoreAnswers(write, cfg)
    ensures var q := Batched(p, m, n, end, write);
      Stops(q, end, m, cfg) && (q.stop.None? ==> q.at.block < n && Eventless(m, q.at.block, n))
  {
    if n > p.at.block + 1 {
      BatchStops(p, m, n - 1, end, write, cfg);
      var q := Batched(p, m, n - 1, end, write);
      if q.stop.None? && Boundary(m, p.at.block + 1, n - 1, end) {
        AdvanceStops(q, n - 1, end, m, write, cfg);
        AdvanceReaches(q, n - 1, m, write);
      }
    }
  }

  /** The database replays the survivors, its checkpoint keeps its promise, and every row lies on this
      chain, which the position tops. */
  ghost predicate Sound(p: Progress, c: Node, world: iset<Header>, keys: Keys, cfg: Config) {
    Replays(p.db, p.survivors, keys, cfg) && Durable(p.db, world) && ChainOf(c, world) && TopOf(Rows(p.db), p.at, c)
  }

  lemma {:induction false} AdvanceKeeps(p: Progress, n: nat, m: Moment, c: Node, world: iset<Header>, keys: Keys,
                                        write: Writer, cfg: Config)
    returns (d: Node)
    requires Hashed(world) && Apart(world, keys) && WellFormed(m, world, keys) && StoreAnswers(write, cfg)
    requires p.stop.None? && Sound(p, c, world, keys, cfg)
    requires 0 < n && p.at.block < n && (c == m.node || n == p.at.block + 1)
    ensures var q := Advanced(p, n, m, write); Sound(q, d, world, keys, cfg) && q.at.block <= n
    ensures var q := Advanced(p, n, m, write);
      q.stop.None? ==> d == m.node && q.at == CheckpointOf(q.db) && q.at.block == n
  {
    var q := Advanced(p, n, m, write);
    d := c;
    if q.stop.None? {
      assert Store.Applied(p.db, BlockAt(m, n), cfg) == Ok(q.db);
      RowsOnNode(Rows(p.db), p.at, c, m.node, n, world);
      StoreKeeps(p, q.db, n, m, world, keys, cfg);
      d := m.node;
    }
  }

  lemma {:induction false} StoreKeeps(p: Progress, t: Store.State, n: nat, m: Moment, world: iset<Header>, keys: Keys,
                                      cfg: Config)
    requires Hashed(world) && Apart(world, keys) && WellFormed(m, world, keys)
    requires Replays(p.db, p.survivors, keys, cfg) && p.at.block < n < |m.node|
    requires On(Rows(p.db), m.node) && forall h | h in Rows(p.db) :: Rows(p.db)[h].block <= p.at.block
    requires Store.Applied(p.db, BlockAt(m, n), cfg) == Ok(t)
    ensures Replays(t, p.survivors + [BlockAt(m, n)], keys, cfg)
    ensures TopOf(Rows(t), Position(n, Some(m.node[n].hash)), m.node)
      && CheckpointOf(t) == Position(n, Some(m.node[n].hash))
  {
    var b := BlockAt(m, n);
    NextIsLegal(p.db, p.survivors, p.at, b, m.node, keys, cfg, world);
    AppliedRows(p.db, t, b, cfg);
    ApplyMovesUp(p.db, t, p.at, m.node, n);
    ReplaysMore(p.db, t, p.survivors, b, keys, cfg);
  }

  /** Below n, the rows of a batch lie on a chain that the position tops: the node's once a height is done. */
  ghost predicate Midway(q: Progress, n: nat, from: nat, end: nat, m: Moment, world: iset<Header>, keys: Keys,
                         cfg: Config) {
    q.at.block < n && (n == from ==> q.at.block + 1 == from) && (exists c :: Sound(q, c, world, keys, cfg))
    && (n > from && q.stop.None? ==>
      Sound(q, m.node, world, keys, cfg) && q.at == CheckpointOf(q.db) && (n == end + 1 ==> q.at.block == end))
  }

  lemma {:induction false} MidwayNext(q: Progress, n: nat, from: nat, end: nat, m: Moment, world: iset<Header>,
                                      keys: Keys,
                                      write: Writer, cfg: Config)
    requires Hashed(world) && Apart(world, keys) && WellFormed(m, world, keys) && StoreAnswers(write, cfg)
    requires 0 < from <= n <= end && Midway(q, n, from, end, m, world, keys, cfg)
    ensures Midway(Next(q, n, m, from, end, write), n + 1, from, end, m, world, keys, cfg)
  {
    if q.stop.None? && Boundary(m, from, n, end) {
      var c := m.node;
      if n == from { c :| Sound(q, c, world, keys, cfg); }
      var d := AdvanceKeeps(q, n, m, c, world, keys, write, cfg);
    }
  }

  lemma {:induction false} MidwayStart(p: Progress, end: nat, m: Moment, c: Node, world: iset<Header>, keys: Keys,
                                       cfg: Config)
    requires p.stop.None? && Sound(p, c, world, keys, cfg) && p.at.block < end
    ensures Midway(p, p.at.block + 1, p.at.block + 1, end, m, world, keys, cfg)
  {
  }

  lemma {:induction false} MidwayKeeps(from: nat, end: nat, m: Moment, world: iset<Header>, keys: Keys, write: Writer,
                                       cfg: Config)
    requires Hashed(world) && Apart(world, keys) && WellFormed(m, world, keys) && StoreAnswers(write, cfg) && 0 < from
    ensures forall q, n: nat | from <= n < end + 1 && Midway(q, n, from, end, m, world, keys, cfg) ::
      Midway(Next(q, n, m, from, end, write), n + 1, from, end, m, world, keys, cfg)
  {
    forall q, n: nat | from <= n < end + 1 && Midway(q, n, from, end, m, world, keys, cfg)
      ensures Midway(Next(q, n, m, from, end, write), n + 1, from, end, m, world, keys, cfg)
    {
      MidwayNext(q, n, from, end, m, world, keys, write, cfg);
    }
  }

  function WholeBatch(p: Progress, m: Moment, end: nat, write: Writer): Progress {
    Batched(p, m, end + 1, end, write)
  }

  /** What a batch keeps, however far it comes. */
  lemma {:induction false} BatchKeeps(p: Progress, q: Progress, from: nat, m: Moment, end: nat, world: iset<Header>,
                                      keys: Keys,
                                      write: Writer, cfg: Config)
    requires Hashed(world) && Apart(world, keys) && WellFormed(m, world, keys) && StoreAnswers(write, cfg)
    requires p.at.block + 1 == from <= end && q == WholeBatch(p, m, end, write)
    requires Midway(p, from, from, end, m, world, keys, cfg)
    ensures Midway(q, end + 1, from, end, m, world, keys, cfg)
  {
    var inv := (q: Progress, k: nat) => Midway(q, k, from, end, m, world, keys, cfg);
    MidwayKeeps(from, end, m, world, keys, write, cfg);
    WholeInduction(p, q, m, end, write, inv);
  }

  lemma {:induction false} WholeInduction(p: Progress, q: Progress, m: Moment, end: nat, write: Writer,
                                          inv: (Progress, nat) -> bool)
    requires p.at.block <= end && inv(p, p.at.block + 1) && q == WholeBatch(p, m, end, write)
    requires forall r, k: nat | p.at.block < k < end + 1 && inv(r, k) ::
      inv(Next(r, k, m, p.at.block + 1, end, write), k + 1)
    ensures inv(q, end + 1)
  {
    BatchInduction(p, m, end + 1, end, write, inv);
  }

  /** Stopped or finished, the database replays the survivors; a finished batch leaves all rows on the
      node's chain. */
  lemma {:induction false} BatchEnds(q: Progress, from: nat, end: nat, m: Moment, world: iset<Header>, keys: Keys,
                                     cfg: Config)
    requires Midway(q, end + 1, from, end, m, world, keys, cfg) && from <= end
    ensures Replays(q.db, q.survivors, keys, cfg) && Durable(q.db, world)
    ensures q.stop.None? ==> Sound(q, m.node, world, keys, cfg) && q.at == CheckpointOf(q.db) && q.at.block == end
  {
  }

  lemma {:induction false} BatchGrows(p: Progress, q: Progress, was: seq<Block>, from: nat, now: seq<Block>,
                                      stop: Option<RunError>,
                                      m: Moment, end: nat, write: Writer)
    requires p.stop.None? && p.survivors == was && p.at.block + 1 == from && from <= end
    requires q == WholeBatch(p, m, end, write) && q.stop == stop && q.survivors == now
    ensures stop.None? ==> now == was + BatchBlocks(m, from, end)
  {
    BatchStores(p, m, end + 1, end, write);
  }

  lemma {:induction false} BatchHalts(p: Progress, q: Progress, m: Moment, end: nat, write: Writer, cfg: Config)
    requires p.stop.None? && p.at.block <= end && StoreAnswers(write, cfg) && q == WholeBatch(p, m, end, write)
    ensures Stops(q, end, m, cfg)
  {
    BatchStops(p, m, end + 1, end, write, cfg);
  }

  /** All of it for one batch: on sound rows it ends sound, or stops for a reason in the state it reached. */
  lemma {:induction false} BatchDone(p: Progress, db: Store.State, at: Position, survivors: seq<Block>,
                                     stop: Option<RunError>,
                                     from: nat, m: Moment, end: nat, c: Node, world: iset<Header>, keys: Keys,
                                     write: Writer, cfg: Config)
    requires Hashed(world) && Apart(world, keys) && WellFormed(m, world, keys) && StoreAnswers(write, cfg)
    requires p.stop.None? && Sound(p, c, world, keys, cfg) && p.at.block + 1 == from <= end
    requires Progress(db, at, survivors, stop) == WholeBatch(p, m, end, write)
    ensures Replays(db, survivors, keys, cfg) && Durable(db, world)
    ensures stop.None? ==>
      Sound(Progress(db, at, survivors, None), m.node, world, keys, cfg) && at == CheckpointOf(db) && at.block == end
    ensures Stops(Progress(db, at, survivors, stop), end, m, cfg)
  {
    var q := Progress(db, at, survivors, stop);
    BatchHalts(p, q, m, end, write, cfg);
    MidwayStart(p, end, m, c, world, keys, cfg);
    BatchKeeps(p, q, from, m, end, world, keys, write, cfg);
    BatchEnds(q, from, end, m, world, keys, cfg);
  }

  class Indexer {
    const store: Store.Store
    ghost var survivors: seq<Block>
    const start: nat
    const batchSize: nat
    const confirmations: nat
    const stopBlock: nat

    /** New: a zero batch size takes the default. */
    constructor (store: Store.Store, start: nat, batchSize: nat, confirmations: nat, stopBlock: nat)
      ensures this.store == store && this.start == start
      ensures this.batchSize == if batchSize == 0 then 500 else batchSize
      ensures this.confirmations == confirmations && this.stopBlock == stopBlock && survivors == []
    {
      this.store := store;
      this.start := start;
      this.batchSize := if batchSize == 0 then 500 else batchSize;
      this.confirmations := confirmations;
      this.stopBlock := stopBlock;
      survivors := [];
    }

    ghost predicate Faithful(keys: Keys)
      reads this, store
    {
      Replays(store.db, survivors, keys, store.cfg)
    }

    /** What Run knows after a step. */
    ghost function Now(at: Position, stop: Option<RunError>): Progress
      reads this, store
    {
      Progress(store.db, at, survivors, stop)
    }

    /** Store.Rewind to just above a height, and the survivors with it. On a faithful index it is never refused. */
    method RewindAbove(n: nat, ghost keys: Keys)
      requires Faithful(keys)
      modifies store, this`survivors
      ensures Faithful(keys)
      ensures Store.Rewound(old(store.db), n + 1, store.cfg) == Ok(store.db) && Lowered(old(store.db), store.db, n + 1)
      ensures survivors == Runs.Surviving(old(survivors), Runs.RewindStep(n + 1))
    {
      Runs.RewindAccepts(Runs.Index(store.db, survivors), n + 1, store.cfg);
      var rewound := store.Rewind(n + 1);
      RewoundRows(old(store.db), n + 1, store.cfg);
      ReplaysLess(old(store.db), store.db, survivors, n + 1, keys, store.cfg);
      survivors := Runs.Surviving(survivors, Runs.RewindStep(n + 1));
    }

    /** recover's walk down to the highest stored height that agrees with the node, or 0. */
    method FindAgreement(last: nat, node: Node) returns (p: Position)
      requires last < |node|
      ensures Agreement(store.db, last, node, p)
    {
      var n: nat := last;
      while true
        invariant n <= last && forall m: nat | n < m <= last :: !Agrees(store.db, node, m)
        decreases n
      {
        var stored := store.CanonicalBlockHash(n);
        var h := node[n].hash;
        if stored == Some(h) { return Position(n, stored); }
        if n == 0 { return Position(0, None); }
        n := n - 1;
      }
    }

    /** recover: find that height and rewind to just above it. */
    method Recover(last: nat, node: Node, ghost keys: Keys) returns (p: Position)
      requires last < |node| && Faithful(keys)
      modifies store, this`survivors
      ensures Faithful(keys) && Recovered(old(store.db), store.db, last, node, p)
      ensures survivors == Runs.Surviving(old(survivors), Runs.RewindStep(p.block + 1))
    {
      p := FindAgreement(last, node);
      RewindAbove(p.block, keys);
    }

    /** The check at the top of each poll: a confirmed position stays, any other is recovered; afterwards
        every stored block lies on the node's chain. */
    method CheckHead(at: Position, m: Moment, ghost world: iset<Header>, ghost keys: Keys)
      returns (r: Result<Position, RunError>)
      requires Hashed(world) && ChainOf(m.node, world) && |m.node| > 0 && Faithful(keys)
      requires Anchored(Rows(store.db), at, world) && Durable(store.db, world)
      modifies store, this`survivors
      ensures Faithful(keys) && Durable(store.db, world)
      ensures r.Err? <==> at.hash.Some? && |m.node| <= at.block
      ensures r.Err? ==> store.db == old(store.db) && r.error == NotFound
      ensures r.Ok? ==>
        r.value.block <= at.block && Sound(Progress(store.db, r.value, survivors, None), m.node, world, keys, store.cfg)
      ensures forall b | b in survivors :: b in old(survivors)
      ensures r.Ok? && Confirmed(at, m.node) ==> r.value == at && store.db == old(store.db)
      ensures r.Ok? && !Confirmed(at, m.node) ==> Recovered(old(store.db), store.db, at.block, m.node, r.value)
    {
      if at.hash.Some? && at.block >= |m.node| {
        return Err(NotFound);
      }
      if at.hash.Some? && m.node[at.block].hash != at.hash.value {
        var p := Recover(at.block, m.node, keys);
        RecoverLands(old(store.db), store.db, at, m.node, p, world);
        return Ok(p);
      }
      ConfirmedMoves(Rows(store.db), at, m.node, world);
      return Ok(at);
    }

    /** Hand one block to the store. */
    method Take(b: Block, ghost write: Writer) returns (r: Result<(), ApplyError>)
      requires StoreAnswers(write, store.cfg)
      modifies store, this`survivors
      ensures match write(old(store.db), b)
              case Ok(s) => r == Ok(()) && store.db == s && survivors == old(survivors) + [b]
              case Err(e) => r == Err(e) && store.db == old(store.db) && survivors == old(survivors)
    {
      r := store.Apply(b);
      if r.Ok? { survivors := survivors + [b]; }
    }

    /** Fetch one header, check its parent and apply its block. */
    method ApplyBlock(at: Position, n: nat, m: Moment, ghost write: Writer)
      returns (next: Position, stop: Option<RunError>)
      requires StoreAnswers(write, store.cfg)
      modifies store, this`survivors
      ensures Now(next, stop) == Advanced(old(Now(at, None)), n, m, write)
    {
      if n >= |m.node| {
        return at, Some(NotFound);
      }
      var header := m.node[n];
      if n == at.block + 1 && at.hash.Some? && header.parent != at.hash.value && at.block > 0 {
        return at, Some(ParentMismatch(n));
      }
      var b := Block(header, if n in m.logs then m.logs[n] else [], m.context);
      var taken := Take(b, write);
      match taken {
        case Err(e) => return at, Some(Refused(e));
        case Ok(_) => return Position(n, Some(header.hash)), None;
      }
    }

    /** One batch: the range's first, last and event-bearing blocks, in ascending order. */
    method ApplyNumbers(at: Position, end: nat, m: Moment, ghost write: Writer)
      returns (next: Position, stop: Option<RunError>)
      requires at.block < end && StoreAnswers(write, store.cfg)
      modifies store, this`survivors
      ensures Now(next, stop) == WholeBatch(old(Now(at, None)), m, end, write)
    {
      next, stop := at, None;
      ghost var p := Now(at, None);
      for n := at.block + 1 to end + 1
        invariant stop.None? && Now(next, stop) == Batched(p, m, n, end, write)
      {
        if n == at.block + 1 || n == end || n in m.logs {
          next, stop := ApplyBlock(next, n, m, write);
          if stop.Some? {
            StopsForGood(p, m, n + 1, end, end + 1, write);
            return;
          }
        }
      }
    }

    /** Unless it is stopped, it stores exactly those blocks. */
    method ApplyBatch(at: Position, end: nat, m: Moment, ghost write: Writer)
      returns (next: Position, stop: Option<RunError>)
      requires at.block < end && StoreAnswers(write, store.cfg)
      modifies store, this`survivors
      ensures Now(next, stop) == WholeBatch(old(Now(at, None)), m, end, write)
      ensures stop.None? ==> survivors == old(survivors) + BatchBlocks(m, at.block + 1, end)
    {
      next, stop := ApplyNumbers(at, end, m, write);
      BatchGrows(old(Now(at, None)), Now(next, stop), old(survivors), at.block + 1, survivors, stop, m, end, write);
    }

    /** A batch on top of rows that lie on one chain: finished, all lie on the node's chain and exactly the
        batch's blocks are new; stopped, the reason is in the state it reached. */
    method OneBatch(at: Position, end: nat, m: Moment, ghost c: Node, ghost world: iset<Header>, ghost keys: Keys)
      returns (next: Position, stop: Option<RunError>)
      requires Hashed(world) && Apart(world, keys) && WellFormed(m, world, keys) && at.block < end
      requires Sound(Progress(store.db, at, survivors, None), c, world, keys, store.cfg)
      modifies store, this`survivors
      ensures stop.None? ==> survivors == old(survivors) + BatchBlocks(m, at.block + 1, end)
      ensures Faithful(keys) && Durable(store.db, world)
      ensures stop.None? ==>
        Sound(Progress(store.db, next, survivors, None), m.node, world, keys, store.cfg)
        && next == CheckpointOf(store.db) && next.block == end
      ensures Stops(Progress(store.db, next, survivors, stop), end, m, store.cfg)
      ensures Climbs(old(Now(at, None)), Now(next, stop)) && next.block <= end
    {
      ghost var p := Progress(store.db, at, survivors, None);
      ghost var write := WriterOf(store.cfg);
      next, stop := ApplyBatch(at, end, m, write);
      WholeClimbs(p, Progress(store.db, next, survivors, stop), m, end, write);
      BatchDone(p, store.db, next, survivors, stop, at.block + 1, m, end, c, world, keys, write, store.cfg);
    }

    /** A height that a poll may store: deep enough below this head, and not beyond the stop block. */
    ghost predicate InReach(n: nat, head: int) {
      n + confirmations <= head && (stopBlock > 0 ==> n <= stopBlock)
    }

    /** How far a poll goes: the greatest height in reach, or 0. */
    function Target(head: nat): (target: nat)
      ensures target <= head && (target > 0 ==> InReach(target, head))
      ensures forall n: nat | InReach(n, head) :: n <= target
    {
      var confirmed := if head > confirmations then head - confirmations else 0;
      if stopBlock > 0 && confirmed > stopBlock then stopBlock else confirmed
    }

    /** Nothing in reach lies higher. */
    ghost predicate Reaches(block: nat, head: int) {
      forall n: nat | InReach(n, head) :: n <= block
    }

    /** Every block beside these lies in reach of this head. */
    ghost predicate NewInReach(kept: seq<Block>, head: int)
      reads this
    {
      forall b | b in survivors :: b in kept || InReach(b.header.number, head)
    }

    /** One poll of Run: find the target, check the head, then catch up batch by batch. Each batch sees
        its own moment of the node. `from` is where the head check left the position. However the poll
        ends, it stays there or moves within reach of the head, and stores nothing beyond; a poll that
        succeeds leaves nothing in reach above it. */
    method Poll(at: Position, moments: nat -> Moment, t0: nat, ghost world: iset<Header>, ghost keys: Keys)
      returns (next: Position, t: nat, r: Result<(), RunError>, ghost from: Position)
      requires batchSize > 0 && Faithful(keys)
      requires Hashed(world) && Apart(world, keys) && forall i: nat :: WellFormed(moments(i), world, keys)
      requires Anchored(Rows(store.db), at, world) && Durable(store.db, world)
      modifies store, this`survivors
      ensures Faithful(keys) && Durable(store.db, world) && t >= t0
      ensures r.Ok? ==> Sound(Progress(store.db, next, survivors, None), moments(t).node, world, keys, store.cfg)
      ensures from.block <= at.block && (next == from || InReach(next.block, |moments(t0).node| - 1))
      ensures NewInReach(old(survivors), |moments(t0).node| - 1)
      ensures r.Ok? ==> |moments(t0).node| > 0
      ensures r.Ok? ==> Reaches(next.block, |moments(t0).node| - 1)
      ensures r.Err? ==> BlockedBelow(r.error, store.db, next, at.block + |moments(t0).node|, moments(t), store.cfg)
    {
      t := t0;
      next, from := at, at;
      assert WellFormed(moments(t0), world, keys);
      if |moments(t0).node| == 0 {
        StopsBelow(Progress(store.db, next, survivors, Some(NotFound)), 0, at.block, moments(t), store.cfg);
        return next, t, Err(NotFound), from;
      }
      var target := Target(|moments(t0).node| - 1);
      ghost var high := at.block + |moments(t0).node|;
      assert target <= high;
      var checked := CheckHead(at, moments(t0), world, keys);
      if checked.Err? {
        StopsBelow(Progress(store.db, next, survivors, Some(checked.error)), at.block, high, moments(t), store.cfg);
        return next, t, Err(checked.error), from;
      }
      next, from := checked.value, checked.value;
      next, t, r := ToTarget(next, target, |moments(t0).node| - 1, high, moments, t0, world, keys);
    }

    /** The batch loop of a poll. */
    method ToTarget(at: Position, target: nat, ghost head: int, ghost high: nat, moments: nat -> Moment, t0: nat,
                    ghost world: iset<Header>, ghost keys: Keys)
      returns (next: Position, t: nat, r: Result<(), RunError>)
      requires batchSize > 0 && target <= high && (target > 0 ==> InReach(target, head))
      requires Hashed(world) && Apart(world, keys) && forall i: nat :: WellFormed(moments(i), world, keys)
      requires Sound(Progress(store.db, at, survivors, None), moments(t0).node, world, keys, store.cfg)
      modifies store, this`survivors
      ensures Faithful(keys) && Durable(store.db, world) && t >= t0
      ensures r.Ok? ==> Sound(Progress(store.db, next, survivors, None), moments(t).node, world, keys, store.cfg)
      ensures next == at || InReach(next.block, head)
      ensures NewInReach(old(survivors), head) && (r.Ok? ==> next.block >= target)
      ensures r.Err? ==> BlockedBelow(r.error, store.db, next, high, moments(t), store.cfg)
    {
      t, next := t0, at;
      while next.block < target
        invariant t >= t0 && Sound(Progress(store.db, next, survivors, None), moments(t).node, world, keys, store.cfg)
        invariant (next == at || InReach(next.block, head)) && NewInReach(old(survivors), head)
      {
        var end := if next.block + batchSize > target then target else next.block + batchSize;
        ghost var c := moments(t).node;
        ghost var was := Now(next, None);
        t := t + 1;
        assert WellFormed(moments(t), world, keys);
        var stop;
        next, stop := OneBatch(next, end, moments(t), c, world, keys);
        StaysInReach(was, Now(next, stop), target, head, old(survivors));
        if stop.Some? {
          StopsBelow(Progress(store.db, next, survivors, stop), end, high, moments(t), store.cfg);
          return next, t, Err(stop.value);
        }
      }
      return next, t, Ok(());
    }

    /** Climbing to a target that is in reach stays in reach. */
    lemma {:induction false} StaysInReach(p: Progress, q: Progress, target: nat, head: int, kept: seq<Block>)
      requires Climbs(p, q) && p.at.block < target && q.at.block <= target && InReach(target, head)
      requires q.survivors == survivors && forall b | b in p.survivors :: b in kept || InReach(b.header.number, head)
      ensures q.at.block > p.at.block ==> InReach(q.at.block, head)
      ensures NewInReach(kept, head)
    {
    }

    /** At some time up to t the node served a head that has this height in reach. */
    ghost predicate Confirmable(n: nat, moments: nat -> Moment, t: nat) {
      exists i: nat :: i <= t && InReachOf(n, moments(i))
    }

    ghost predicate InReachOf(n: nat, m: Moment) {
      InReach(n, |m.node| - 1)
    }

    /** Every block beside these was deep enough below some head. */
    ghost predicate NewConfirmed(kept: seq<Block>, moments: nat -> Moment, t: nat)
      reads this
    {
      forall b | b in survivors :: b in kept || Confirmable(b.header.number, moments, t)
    }

    lemma {:induction false} StillConfirmed(kept: seq<Block>, was: seq<Block>, moments: nat -> Moment, t: nat, u: nat)
      requires t <= u && NewInReach(was, |moments(t).node| - 1)
      requires forall b | b in was :: b in kept || Confirmable(b.header.number, moments, t)
      ensures NewConfirmed(kept, moments, u)
    {
      forall b | b in survivors ensures b in kept || Confirmable(b.header.number, moments, u) {
        if b !in was { assert InReachOf(b.header.number, moments(t)); }
      }
    }

    /** Run for some number of polls. The durable state keeps its promise at every exit, crashes and
        refusals included; the database stays the replay of its surviving blocks throughout; no block is
        stored that was not deep enough below a head the node served; and after a good poll every stored
        block lies on the chain the node last served. */
    method Run(polls: nat, moments: nat -> Moment, ghost world: iset<Header>, ghost keys: Keys)
      returns (at: Position, t: nat, r: Result<(), RunError>)
      requires batchSize > 0 && Faithful(keys)
      requires Hashed(world) && Apart(world, keys) && forall i: nat :: WellFormed(moments(i), world, keys)
      requires Durable(store.db, world)
      requires StartsInTime(store.db, start)
      modifies store, this`survivors
      ensures Durable(store.db, world) && Faithful(keys)
      ensures r.Ok? && polls > 0 ==> On(Rows(store.db), moments(t).node)
      ensures NewConfirmed(old(survivors), moments, t)
      ensures r.Err? ==> exists high: nat :: BlockedBelow(r.error, store.db, at, high, moments(t), store.cfg)
    {
      StartAnchored(store.db, start, world);
      at := InitialCheckpoint(CheckpointOf(store.db), start);
      t := 0;
      for i := 0 to polls
        invariant Durable(store.db, world) && Anchored(Rows(store.db), at, world) && Faithful(keys)
        invariant i > 0 ==> On(Rows(store.db), moments(t).node)
        invariant NewConfirmed(old(survivors), moments, t)
      {
        ghost var from, was, head := at, survivors, t;
        at, t, r, from := Poll(at, moments, t, world, keys);
        StillConfirmed(old(survivors), was, moments, head, t);
        if r.Err? { return; }
        assert WellFormed(moments(t), world, keys);
      }
      return at, t, Ok(());
    }
  }
}
