/** The indexer's PostgreSQL store: Apply and Rewind as atomic transactions over flagged tables.
    Each method is proved against a function of the old state; module Reorg proves what those
    functions mean. */
module Store {
  import opened Wrappers
  import opened Chain
  import opened Tables
  import opened Analytics
  import opened CtoProjection
  import opened Views
  import Pairing

  /** indexer_checkpoints: the empty hash is `None`. */
  datatype Checkpoint = Checkpoint(block: nat, hash: Option<Hash>)

  datatype State = State(
    blocks: Table<Hash, BlockInfo>,
    events: Table<LogKey, Event>,
    tokens: Table<LogKey, Token>,
    curves: Table<LogKey, Curve>,
    trades: Table<LogKey, Trade>,
    graduations: Table<LogKey, Graduation>,
    liquidity: Table<LogKey, Liquidity>,
    cto: CtoTables,
    columns: map<LogKey, CurveColumns>,
    metrics: map<Address, Metrics>,
    holders: map<Address, map<Address, int>>,
    buckets: map<Address, map<int, Candle>>,
    checkpoint: Option<Checkpoint>)

  const EMPTY_STATE := State(map[], map[], map[], map[], map[], map[], map[], EMPTY_CTO, map[], map[], map[], map[],
    None)

  // ---------------------------------------------------------------- what readers see

  function Seen(s: State): View {
    View(Canonical(s.blocks), Canonical(s.events), Canonical(s.tokens), Canonical(s.curves),
         Canonical(s.trades), Canonical(s.graduations), Canonical(s.liquidity))
  }

  /** The derived columns and tables, with stale columns of orphaned curve rows left out. */
  function SeenDerived(s: State): Derived {
    Derived(map k | k in s.columns && k in s.curves && s.curves[k].canonical :: s.columns[k],
            s.metrics, s.holders, s.buckets)
  }

  // ---------------------------------------------------------------- the steps of the transactions

  function OrphanedFrom(s: State, from: nat): State {
    s.(blocks := OrphanFrom(s.blocks, from), events := OrphanFrom(s.events, from),
       tokens := OrphanFrom(s.tokens, from), curves := OrphanFrom(s.curves, from),
       trades := OrphanFrom(s.trades, from), graduations := OrphanFrom(s.graduations, from),
       liquidity := OrphanFrom(s.liquidity, from),
       cto := CtoTables(OrphanFrom(s.cto.records, from), OrphanFrom(s.cto.proposals, from),
                        OrphanFrom(s.cto.states, from)))
  }

  /** A replacement block orphans the rows of other blocks at its height, then inserts itself. */
  function BlockOpened(s: State, b: Header): State {
    s.(blocks := Upsert(OrphanRivals(s.blocks, b.number, b.hash), b.hash, BlockFact(b)),
       events := OrphanRivals(s.events, b.number, b.hash),
       tokens := OrphanRivals(s.tokens, b.number, b.hash), curves := OrphanRivals(s.curves, b.number, b.hash),
       trades := OrphanRivals(s.trades, b.number, b.hash), graduations := OrphanRivals(s.graduations, b.number, b.hash),
       liquidity := OrphanRivals(s.liquidity, b.number, b.hash),
       cto := CtoTables(OrphanRivals(s.cto.records, b.number, b.hash), OrphanRivals(s.cto.proposals, b.number, b.hash),
                        OrphanRivals(s.cto.states, b.number, b.hash)))
  }

  /** trustedCTOEmitter on the tables: cto_treasuries or a canonical deployment event. */
  predicate TrustedEmitter(s: State, l: Log, roots: Roots) {
    l.payload.Cto? && roots.Configured() &&
    match KindOf(l.payload.event)
    case RegistryKind => l.address == roots.registry
    case FeeManagerKind => l.address == roots.feeManager
    case TreasuryKind =>
      (exists k | k in s.cto.records :: s.cto.records[k].canonical && s.cto.records[k].data.Treasury?
                                        && s.cto.records[k].data.treasury == l.address)
      || (exists k | k in s.events :: s.events[k].canonical && Deploys(s.events[k].data, l.address, roots))
  }

  function Upserted<T>(t: Table<LogKey, T>, l: Log, data: Option<T>): Table<LogKey, T> {
    match data
    case None => t
    case Some(d) => Upsert(t, l.Key(), Fact(l.block, l.blockHash, d))
  }

  function Inserted(s: State, l: Log, w: Writes): State {
    s.(events := Upserted(s.events, l, w.event), tokens := Upserted(s.tokens, l, w.token),
       curves := Upserted(s.curves, l, w.curve), trades := Upserted(s.trades, l, w.trade),
       graduations := Upserted(s.graduations, l, w.graduation), liquidity := Upserted(s.liquidity, l, w.liquidity))
  }

  /** insertEvent: trust check, canonical event upsert and projection of one log. */
  function LogInserted(s: State, l: Log, ctx: Context, cfg: Config): Result<State, ApplyError> {
    match Effects(l, TrustedEmitter(s, l, cfg.roots), PoolOwner(Canonical(s.curves), Canonical(s.tokens), l.address),
      ctx, cfg)
    case Err(e) => Err(e)
    case Ok(w) => Ok(Inserted(s, l, w))
  }

  function LogsInserted(s: State, b: Block, n: nat, cfg: Config): Result<State, ApplyError>
    requires n <= |b.logs|
  {
    if n == 0 then Ok(s)
    else
      match LogsInserted(s, b, n - 1, cfg)
      case Err(e) => Err(e)
      case Ok(before) =>
        var l := b.logs[n - 1];
        if l.block != b.header.number || l.blockHash != b.header.hash then Err(WrongProvenance)
        else LogInserted(before, l, b.context, cfg)
  }

  /** The four rebuilds, which clear and refill every derived table. */
  function Rebuild(s: State, cfg: Config): Result<State, ApplyError> {
    var v := Seen(s);
    match Rebuilt(s.cto, CtoHistory(v))
    case Err(_) => Err(AmbiguousCtoRoute)
    case Ok(cto) =>
      var d := DerivedOf(v, cfg);
      Ok(s.(cto := cto, columns := s.columns + d.columns,
            metrics := d.metrics, holders := d.holders, buckets := d.buckets))
  }

  function Applied(s: State, b: Block, cfg: Config): Result<State, ApplyError> {
    match Refusal(b, cfg)
    case Some(e) => Err(e)
    case None =>
      match LogsInserted(BlockOpened(s, b.header), b, |b.logs|, cfg)
      case Err(e) => Err(e)
      case Ok(inserted) =>
        match Rebuild(inserted, cfg)
        case Err(e) => Err(e)
        case Ok(rebuilt) => Ok(rebuilt.(checkpoint := Some(Checkpoint(b.header.number, Some(b.header.hash)))))
  }

  predicate IsLeast(h: Hash, hs: set<Hash>) {
    h in hs && forall g | g in hs :: h <= g
  }

  lemma {:induction false} LeastHash(hs: set<Hash>)
    requires hs != {}
    ensures exists h :: IsLeast(h, hs)
  {
    var g :| g in hs;
    var rest := hs - {g};
    assert forall f :: f in hs <==> f == g || f in rest;
    if rest != {} {
      LeastHash(rest);
      var h :| IsLeast(h, rest);
      assert IsLeast(if g < h then g else h, hs);
    } else {
      assert IsLeast(g, hs);
    }
  }

  /** CanonicalBlockHash: a partial unique index keeps at most one canonical block per height. */
  function CanonicalHash(blocks: Table<Hash, BlockInfo>, n: nat): (r: Option<Hash>)
    ensures r.None? <==> forall h | h in blocks :: !(blocks[h].canonical && blocks[h].block == n)
    ensures r.Some? ==> r.value in blocks && blocks[r.value].canonical && blocks[r.value].block == n
  {
    var hs := set h | h in blocks && blocks[h].canonical && blocks[h].block == n;
    if hs == {} then
      assert forall h | h in blocks :: h !in hs;
      None
    else
      LeastHash(hs);
      var h :| IsLeast(h, hs);
      Some(h)
  }

  function RewoundCheckpoint(s: State, from: nat): Option<Checkpoint> {
    if s.checkpoint.None? then None
    else
      var n := if from > 0 then from - 1 else 0;
      Some(Checkpoint(n, if n > 0 then CanonicalHash(s.blocks, n) else None))
  }

  function Rewound(s: State, from: nat, cfg: Config): Result<State, ApplyError> {
    match Rebuild(OrphanedFrom(s, from), cfg)
    case Err(e) => Err(e)
    case Ok(rebuilt) => Ok(rebuilt.(checkpoint := RewoundCheckpoint(rebuilt, from)))
  }

  // ---------------------------------------------------------------- the store

  /** The source's Store holds one connection pool; here that is the database it reaches. */
  class Store {
    const cfg: Config
    var db: State

    constructor (cfg: Config)
      ensures this.cfg == cfg && db == EMPTY_STATE
    {
      this.cfg := cfg;
      db := EMPTY_STATE;
    }

    method InsertEvent(s: State, l: Log, ctx: Context) returns (r: Result<State, ApplyError>)
      ensures r == LogInserted(s, l, ctx, cfg)
    {
      if l.payload.Unknown? { return Ok(s); }
      var trusted := TrustedEmitter(s, l, cfg.roots);
      if l.payload.Cto? && !trusted { return Ok(s); }
      var owner := PoolOwner(Canonical(s.curves), Canonical(s.tokens), l.address);
      match Effects(l, trusted, owner, ctx, cfg) {
        case Err(e) => return Err(e);
        case Ok(w) => return Ok(Inserted(s, l, w));
      }
    }

    /** The log loop of Apply, on the state in which the block has been opened. */
    method InsertLogs(started: State, b: Block) returns (r: Result<State, ApplyError>)
      ensures r == LogsInserted(started, b, |b.logs|, cfg)
    {
      var s := started;
      for i := 0 to |b.logs|
        invariant LogsInserted(started, b, i, cfg) == Ok(s)
      {
        var l := b.logs[i];
        if l.block != b.header.number || l.blockHash != b.header.hash {
          ErrorsPersist(started, b, i + 1, |b.logs|, cfg);
          return Err(WrongProvenance);
        }
        var inserted := InsertEvent(s, l, b.context);
        match inserted {
          case Err(e) =>
            ErrorsPersist(started, b, i + 1, |b.logs|, cfg);
            return Err(e);
          case Ok(next) => s := next;
        }
      }
      return Ok(s);
    }

    /** ApplyWithProvenance: on success the whole new state is `Applied`; on any error the
        transaction rolls back and nothing has changed. */
    method Apply(b: Block) returns (r: Result<(), ApplyError>)
      modifies this
      ensures match Applied(old(db), b, cfg)
              case Ok(s) => r == Ok(()) && db == s
              case Err(e) => r == Err(e) && db == old(db)
    {
      var paired := Pairing.ValidateGraduationPairs(b.logs, cfg.roots);
      if !paired { return Err(InvalidGraduationPairs); }
      paired := Pairing.ValidateCtoActivationPairs(b.logs, cfg.roots);
      if !paired { return Err(InvalidActivationPairs); }
      var inserted := InsertLogs(BlockOpened(db, b.header), b);
      if inserted.Err? { return Err(inserted.error); }
      var rebuilt := RebuildAll(inserted.value);
      match rebuilt {
        case Err(e) => return Err(e);
        case Ok(next) =>
          db := next.(checkpoint := Some(Checkpoint(b.header.number, Some(b.header.hash))));
          return Ok(());
      }
    }

    method RebuildAll(s: State) returns (r: Result<State, ApplyError>)
      ensures r == Rebuild(s, cfg)
    {
      var v := Seen(s);
      var cto := RebuildCto(s.cto, CtoHistory(v));
      match cto {
        case Err(_) => return Err(AmbiguousCtoRoute);
        case Ok(tables) =>
          var d := DerivedOf(v, cfg);
          return Ok(s.(cto := tables, columns := s.columns + d.columns, metrics := d.metrics,
                       holders := d.holders, buckets := d.buckets));
      }
    }

    /** Rewind: orphan every canonical row from a height up, rebuild, and move the checkpoint below it. */
    method Rewind(from: nat) returns (r: Result<(), ApplyError>)
      modifies this
      ensures match Rewound(old(db), from, cfg)
              case Ok(s) => r == Ok(()) && db == s
              case Err(e) => r == Err(e) && db == old(db)
    {
      var rebuilt := RebuildAll(OrphanedFrom(db, from));
      match rebuilt {
        case Err(e) => return Err(e);
        case Ok(next) =>
          db := next.(checkpoint := RewoundCheckpoint(next, from));
          return Ok(());
      }
    }

    /** The canonical row at a height, if there is one. */
    method CanonicalBlockHash(n: nat) returns (r: Option<Hash>)
      ensures r == CanonicalHash(db.blocks, n)
      ensures r.None? <==> forall h | h in db.blocks :: !(db.blocks[h].canonical && db.blocks[h].block == n)
      ensures r.Some? ==> r.value in db.blocks && db.blocks[r.value].canonical && db.blocks[r.value].block == n
    {
      r := CanonicalHash(db.blocks, n);
    }
  }

  lemma {:induction false} ErrorsPersist(s: State, b: Block, m: nat, n: nat, cfg: Config)
    requires m <= n <= |b.logs| && LogsInserted(s, b, m, cfg).Err?
    ensures LogsInserted(s, b, n, cfg) == LogsInserted(s, b, m, cfg)
  {
    if m < n { ErrorsPersist(s, b, m, n - 1, cfg); }
  }
}
