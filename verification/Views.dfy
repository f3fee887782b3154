/** The canonical content of the index without flags or history: what a replay of a chain means.
    `RecordLog` is one log's effect, `ViewOf` a whole chain's, and `Rebuild...` everything the
    indexer derives from it. */
module Views {
  import opened Wrappers
  import opened Chain
  import opened Tables
  import opened Analytics
  import opened CtoProjection
  import Balances
  import Numeric
  import Order
  import Pairing
  import Swaps

  /** The block columns beside number and hash. */
  datatype BlockInfo = BlockInfo(parent: Hash, time: nat)
  datatype Event = Event(txIndex: nat, address: Address, payload: Payload)
  datatype Token = Token(token: Address, creator: Address, name: string, symbol: string, supply: nat)
  datatype Curve = Curve(token: Address, curve: Address, pool: Address, creator: Address, allocation: nat)
  datatype Graduation = Graduation(token: Address, manager: Address, soldSupply: nat, tokens: nat, nativeUsdc: nat)
  datatype Liquidity = Liquidity(token: Address, manager: Address, custodian: Address, position: nat, amount: nat)

  datatype View = View(
    blocks: Facts<Hash, BlockInfo>,
    events: Facts<LogKey, Event>,
    tokens: Facts<LogKey, Token>,
    curves: Facts<LogKey, Curve>,
    trades: Facts<LogKey, Trade>,
    graduations: Facts<LogKey, Graduation>,
    liquidity: Facts<LogKey, Liquidity>)

  const EMPTY_VIEW := View(map[], map[], map[], map[], map[], map[], map[])

  /** ERC-20 metadata read at the launch block. */
  datatype Metadata = Metadata(name: string, symbol: string, decimals: nat)

  /** What the caller of Apply supplies beside the logs. */
  datatype Context = Context(metadata: map<Address, Metadata>, senders: map<Hash, Address>)

  /** What stays fixed: trusted roots, application exclusions and the arithmetic of the price queries. */
  datatype Config = Config(roots: Roots, excluded: set<Address>, virtualReserve: nat, digits: Numeric.Digits)

  datatype ApplyError =
    | InvalidGraduationPairs | InvalidActivationPairs | WrongProvenance | MissingMetadata | WrongDecimals
    | InvalidDeltas | MissingSender | AmbiguousCtoRoute

  // ---------------------------------------------------------------- lookups made while projecting

  function Place(block: nat, k: LogKey): Order.Pos {
    Order.Pos(block, 0, k.index, k.tx)
  }

  /** ORDER BY block_number DESC, log_index DESC LIMIT 1. */
  function Newest<T>(facts: Facts<LogKey, T>, keys: set<LogKey>): (r: Option<LogKey>)
    requires keys <= facts.Keys
    ensures r.None? <==> keys == {}
    ensures r.Some? ==> r.value in keys && forall k | k in keys ::
      k == r.value || Order.Less(Place(facts[k].block, k), Place(facts[r.value].block, r.value))
  {
    var places := set k | k in keys :: Place(facts[k].block, k);
    if keys == {} then None
    else
      assert places != {} by { var k :| k in keys; assert Place(facts[k].block, k) in places; }
      var sorted := Order.Sort(places);
      var last := sorted[|sorted| - 1];
      assert last in sorted;
      assert forall k | k in keys :: Place(facts[k].block, k) in sorted;
      Some(LogKey(last.tx, last.index))
  }

  /** The token a canonical pool belongs to, through curves joined with tokens. */
  function PoolOwner(curves: Facts<LogKey, Curve>, tokens: Facts<LogKey, Token>, pool: Address): Option<Address> {
    var keys := set k | k in curves && curves[k].data.pool == pool
                        && exists t | t in tokens :: tokens[t].data.token == curves[k].data.token;
    match Newest(curves, keys)
    case None => None
    case Some(k) => Some(curves[k].data.token)
  }

  /** Is this event a registry's treasury deployment of this address? */
  predicate Deploys(e: Event, treasury: Address, roots: Roots) {
    e.payload.Cto? && e.payload.event.TreasuryDeployed? && e.address == roots.registry
    && e.payload.event.treasury == treasury
  }

  /** trustedCTOEmitter, reading deployments from the canonical events. */
  predicate Trusted(e: CtoEvent, emitter: Address, events: Facts<LogKey, Event>, roots: Roots) {
    roots.Configured() &&
    match KindOf(e)
    case RegistryKind => emitter == roots.registry
    case FeeManagerKind => emitter == roots.feeManager
    case TreasuryKind => exists k | k in events :: Deploys(events[k].data, emitter, roots)
  }

  // ---------------------------------------------------------------- one log

  /** The rows one log writes. */
  datatype Writes = Writes(event: Option<Event>, token: Option<Token>, curve: Option<Curve>, trade: Option<Trade>,
                           graduation: Option<Graduation>, liquidity: Option<Liquidity>)

  const NO_WRITES := Writes(None, None, None, None, None, None)

  /** The trades row of a swap: the pool's executed deltas and the transaction's sender. */
  function SwapTrade(token: Address, l: Log, ctx: Context): Result<Trade, ApplyError>
    requires l.payload.Swap?
  {
    match Swaps.Normalize(token, l.payload.amount0, l.payload.amount1)
    case None => Err(InvalidDeltas)
    case Some(r) =>
      if l.tx !in ctx.senders || ctx.senders[l.tx] == ZERO_ADDRESS then Err(MissingSender)
      else Ok(Trade(token, ctx.senders[l.tx], r.side, r.tokens, r.usdc, r.usdc, 0, 0, PoolSource, l.txIndex))
  }

  /** insertEvent and projection: which rows a log writes, given the answers of the two lookups. */
  function Effects(l: Log, trusted: bool, owner: Option<Address>, ctx: Context,
                   cfg: Config): Result<Writes, ApplyError> {
    if l.payload.Unknown? || (l.payload.Cto? && !trusted) then Ok(NO_WRITES)
    else
      var w := NO_WRITES.(event := Some(Event(l.txIndex, l.address, l.payload)));
      match l.payload
      case Launch(creator, token, curve, supply, allocation, pool) =>
        if token in cfg.excluded then Ok(w)
        else if token !in ctx.metadata || ctx.metadata[token].name == "" || ctx.metadata[token].symbol == "" then
          Err(MissingMetadata)
        else if ctx.metadata[token].decimals != 18 then Err(WrongDecimals)
        else
          var m := ctx.metadata[token];
          Ok(w.(token := Some(Token(token, creator, m.name, m.symbol, supply)),
                curve := Some(Curve(token, curve, pool, creator, allocation))))
      case Bought(token, buyer, gross, net, tokens, protocolFee, creatorFee) =>
        if token in cfg.excluded then Ok(w)
        else Ok(w.(trade := Some(Trade(token, buyer, Buy, tokens, gross, net, protocolFee, creatorFee, CurveSource,
          l.txIndex))))
      case Sold(token, seller, tokens, gross, net, protocolFee, creatorFee) =>
        if token in cfg.excluded then Ok(w)
        else Ok(w.(trade := Some(Trade(token, seller, Sell, tokens, net, gross, protocolFee, creatorFee, CurveSource,
          l.txIndex))))
      case Swap(_, _) =>
        (match owner
         case None => Ok(w)
         case Some(token) =>
           match SwapTrade(token, l, ctx)
           case Err(e) => Err(e)
           case Ok(t) => Ok(w.(trade := Some(t))))
      case Graduated(token, manager, tokens, native, sold) =>
        if token in cfg.excluded then Ok(w)
        else Ok(w.(graduation := Some(Graduation(token, manager, sold, tokens, native))))
      case Settled(token, custodian, position, amount) =>
        if token in cfg.excluded then Ok(w)
        else Ok(w.(liquidity := Some(Liquidity(token, l.address, custodian, position, amount))))
      case Transfer(_, _, _) => Ok(w)
      case Cto(_) => Ok(w)
      case Unknown => Ok(NO_WRITES)
  }

  function Put<T>(facts: Facts<LogKey, T>, l: Log, data: Option<T>): Facts<LogKey, T> {
    match data
    case None => facts
    case Some(d) => facts[l.Key() := Fact(l.block, l.blockHash, d)]
  }

  function PutAll(v: View, l: Log, w: Writes): View {
    View(v.blocks, Put(v.events, l, w.event), Put(v.tokens, l, w.token), Put(v.curves, l, w.curve),
         Put(v.trades, l, w.trade), Put(v.graduations, l, w.graduation), Put(v.liquidity, l, w.liquidity))
  }

  predicate TrustedLog(v: View, l: Log, roots: Roots) {
    l.payload.Cto? && Trusted(l.payload.event, l.address, v.events, roots)
  }

  function EffectsIn(v: View, l: Log, ctx: Context, cfg: Config): Result<Writes, ApplyError> {
    Effects(l, TrustedLog(v, l, cfg.roots), PoolOwner(v.curves, v.tokens, l.address), ctx, cfg)
  }

  function RecordLog(v: View, l: Log, ctx: Context, cfg: Config): Result<View, ApplyError> {
    match EffectsIn(v, l, ctx, cfg)
    case Err(e) => Err(e)
    case Ok(w) => Ok(PutAll(v, l, w))
  }

  // ---------------------------------------------------------------- blocks and chains

  datatype Block = Block(header: Header, logs: seq<Log>, context: Context)

  function RecordLogs(v: View, b: Block, n: nat, cfg: Config): Result<View, ApplyError>
    requires n <= |b.logs|
  {
    if n == 0 then Ok(v)
    else
      match RecordLogs(v, b, n - 1, cfg)
      case Err(e) => Err(e)
      case Ok(before) =>
        var l := b.logs[n - 1];
        if l.block != b.header.number || l.blockHash != b.header.hash then Err(WrongProvenance)
        else RecordLog(before, l, b.context, cfg)
  }

  function Refusal(b: Block, cfg: Config): Option<ApplyError> {
    if !Pairing.ValidGraduations(b.logs, cfg.roots) then Some(InvalidGraduationPairs)
    else if !Pairing.ValidActivations(b.logs, cfg.roots) then Some(InvalidActivationPairs)
    else None
  }

  function BlockFact(b: Header): Fact<BlockInfo> {
    Fact(b.number, b.hash, BlockInfo(b.parent, b.time))
  }

  function Started(v: View, b: Header): View {
    v.(blocks := v.blocks[b.hash := BlockFact(b)])
  }

  function RecordBlock(v: View, b: Block, cfg: Config): Result<View, ApplyError> {
    match Refusal(b, cfg)
    case Some(e) => Err(e)
    case None => RecordLogs(Started(v, b.header), b, |b.logs|, cfg)
  }

  /** A fresh in-order replay of a chain of blocks. */
  function ViewOf(chain: seq<Block>, cfg: Config): Result<View, ApplyError>
    decreases |chain|
  {
    if chain == [] then Ok(EMPTY_VIEW)
    else
      match ViewOf(chain[..|chain| - 1], cfg)
      case Err(e) => Err(e)
      case Ok(v) => RecordBlock(v, chain[|chain| - 1], cfg)
  }

  // ---------------------------------------------------------------- derived tables

  /** Canonical events of canonical blocks, in chain order. */
  function EventOrder(v: View): seq<Order.Pos> {
    Order.Sort(set k | k in v.events && v.events[k].hash in v.blocks ::
                 Order.Pos(v.events[k].block, v.events[k].data.txIndex, k.index, k.tx))
  }

  predicate Listed(v: View, p: Order.Pos) {
    var k := LogKey(p.tx, p.index);
    k in v.events && v.events[k].hash in v.blocks
  }

  lemma {:induction false} EventOrderListed(v: View)
    ensures forall p | p in EventOrder(v) :: Listed(v, p)
  {
  }

  function CtoLogAt(v: View, p: Order.Pos): Option<CtoLog>
    requires Listed(v, p)
  {
    var f := v.events[LogKey(p.tx, p.index)];
    if f.data.payload.Cto? then
      Some(CtoLog(f.data.address, Mark(f.block, f.hash, p.tx, p.index), v.blocks[f.hash].data.time,
        f.data.payload.event))
    else None
  }

  function CtoLogs(v: View, ps: seq<Order.Pos>): seq<CtoLog>
    requires forall p | p in ps :: Listed(v, p)
    decreases |ps|
  {
    if ps == [] then []
    else
      var init := CtoLogs(v, ps[..|ps| - 1]);
      match CtoLogAt(v, ps[|ps| - 1])
      case None => init
      case Some(e) => init + [e]
  }

  /** The SELECT of rebuildCTOTx. */
  function CtoHistory(v: View): seq<CtoLog> {
    EventOrderListed(v);
    CtoLogs(v, EventOrder(v))
  }

  function SeenEvents(v: View): seq<Balances.Seen> {
    var ps := EventOrder(v);
    EventOrderListed(v);
    seq(|ps|, i requires 0 <= i < |ps| =>
      assert ps[i] in ps;
      var e := v.events[LogKey(ps[i].tx, ps[i].index)].data;
      Balances.Seen(e.address, e.payload))
  }

  predicate TradeListed(v: View, token: Address, p: Order.Pos) {
    var k := LogKey(p.tx, p.index);
    k in v.trades && v.trades[k].data.token == token && v.trades[k].hash in v.blocks
  }

  /** A token's canonical trades in chain order, each with its block's time. */
  function History(v: View, token: Address): seq<Placed> {
    var ps := Order.Sort(set k | k in v.trades && v.trades[k].data.token == token && v.trades[k].hash in v.blocks ::
                           Order.Pos(v.trades[k].block, v.trades[k].data.txIndex, k.index, k.tx));
    assert forall p | p in ps :: TradeListed(v, token, p);
    seq(|ps|, i requires 0 <= i < |ps| =>
      assert ps[i] in ps && TradeListed(v, token, ps[i]);
      var f := v.trades[LogKey(ps[i].tx, ps[i].index)];
      Placed(ps[i], v.blocks[f.hash].data.time, f.data))
  }

  function Tokens(v: View): set<Address> {
    set k | k in v.tokens :: v.tokens[k].data.token
  }

  /** initial_supply of the token's newest canonical row. */
  function SupplyOf(v: View, token: Address): nat {
    match Newest(v.tokens, set k | k in v.tokens && v.tokens[k].data.token == token)
    case None => 0
    case Some(k) => v.tokens[k].data.supply
  }

  datatype CurveColumns = CurveColumns(sold: int, reserve: int, graduated: bool)

  /** rebuildCurveStateTx for one canonical curve row. */
  function ColumnsOf(v: View, token: Address): CurveColumns {
    var s := Aggregate(History(v, token));
    CurveColumns(s.sold, s.reserve,
                 exists k | k in v.events ::
                   v.events[k].data.payload.Graduated? && v.events[k].data.payload.token == token)
  }

  function Launched(v: View): set<Address> {
    set k | k in v.events && v.events[k].data.payload.Launch? :: v.events[k].data.payload.token
  }

  /** token_metrics, token_holder_balances and the hourly token_trade_buckets. */
  datatype Derived = Derived(
    columns: map<LogKey, CurveColumns>,
    metrics: map<Address, Metrics>,
    holders: map<Address, map<Address, int>>,
    buckets: map<Address, map<int, Candle>>)

  function DerivedOf(v: View, cfg: Config): Derived {
    Derived(
      map k | k in v.curves :: ColumnsOf(v, v.curves[k].data.token),
      map t | t in Tokens(v) :: MetricsOf(History(v, t), SupplyOf(v, t), cfg.virtualReserve, cfg.digits),
      map t | t in Tokens(v) + Launched(v) :: Balances.Stored(SeenEvents(v), t, t in Tokens(v)),
      map t | t in Tokens(v) :: Candles(History(v, t), Bucketing(Every(3600)), cfg.virtualReserve, cfg.digits))
  }
}
