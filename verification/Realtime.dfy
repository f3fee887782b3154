/** The realtime service: it follows the registered market sources over a live subscription and,
    whenever a source is new or the connection was lost, replays the missed blocks of that source
    before going live. A replay that would be too long is an error, never a gap. */
module Realtime {
  import opened Wrappers
  import opened Chain
  import D = Deduper
  import Sorting

  const MAXIMUM_BACKFILL_BLOCKS: nat := 512

  datatype SourceKind = CurveKind | PoolKind

  /** A market follows its curve until it graduates, then its pool. */
  datatype Market = Market(token: Address, curve: Address, pool: Address, graduated: bool, start: nat)
  {
    function Address(): Address { if graduated then pool else curve }
    function Kind(): SourceKind { if graduated then PoolKind else CurveKind }

    /** Validate: a token, a curve, a pool once graduated, and a start block. */
    predicate Valid() {
      token != ZERO_ADDRESS && curve != ZERO_ADDRESS && (graduated ==> pool != ZERO_ADDRESS) && start > 0
    }
  }

  datatype Registration = Registration(market: Market, source: SourceKind)
  type Registrations = map<Address, Registration>

  function RegistrationOf(m: Market): Registration {
    Registration(m, m.Kind())
  }

  /** A delivered log. */
  datatype Delivery = Delivery(log: Log, removed: bool)

  /** SubscriptionTopicsFor. */
  predicate OnTopic(source: SourceKind, p: Payload) {
    match source
    case CurveKind => p.Bought? || p.Sold?
    case PoolKind => p.Swap?
  }

  predicate InReplay(l: Log, address: Address, source: SourceKind, start: nat, head: nat) {
    l.address == address && OnTopic(source, l.payload) && start <= l.block <= head
  }

  predicate ReplayOrder(a: Log, b: Log) {
    a.block < b.block || (a.block == b.block &&
      (a.txIndex < b.txIndex || (a.txIndex == b.txIndex &&
        (a.index < b.index || (a.index == b.index && a.tx < b.tx)))))
  }

  /** eth_getLogs for one source, sorted. */
  function ReplayLogs(chain: seq<Log>, address: Address, source: SourceKind, start: nat, head: nat): (r: seq<Log>)
    ensures forall l :: l in r <==> l in chain && InReplay(l, address, source, start, head)
  {
    var found := Sorting.Select(chain, (l: Log) => InReplay(l, address, source, start, head));
    Sorting.SelectMembers(chain, (l: Log) => InReplay(l, address, source, start, head));
    Sorting.SortPermutes(found, ReplayOrder);
    var sorted := Sorting.Sort(found, ReplayOrder);
    assert forall l :: l in sorted <==> l in multiset(sorted);
    assert forall l :: l in found <==> l in multiset(found);
    sorted
  }

  /** A market is followed at its curve for buys and sells until it has graduated, then at its pool for swaps. */
  lemma {:induction false} SourceMeans(m: Market, l: Log, start: nat, head: nat)
    ensures InReplay(l, m.Address(), m.Kind(), start, head) <==>
      start <= l.block <= head
      && (if m.graduated then l.address == m.pool && l.payload.Swap?
          else l.address == m.curve && (l.payload.Bought? || l.payload.Sold?))
  {
  }

  /** A replay hands its logs over by block, transaction index and log index. */
  lemma {:induction false} ReplayOrdered(chain: seq<Log>, address: Address, source: SourceKind, start: nat, head: nat)
    requires Sorting.Compares(chain, ReplayOrder) && Sorting.Distinct(chain)
    ensures var r := ReplayLogs(chain, address, source, start, head);
      forall i, j | 0 <= i < j < |r| ::
        r[i].block < r[j].block
        || (r[i].block == r[j].block && r[i].txIndex < r[j].txIndex)
        || (r[i].block == r[j].block && r[i].txIndex == r[j].txIndex && r[i].index < r[j].index)
        || (r[i].block == r[j].block && r[i].txIndex == r[j].txIndex && r[i].index == r[j].index && r[i].tx < r[j].tx)
  {
    var keep := (l: Log) => InReplay(l, address, source, start, head);
    Sorting.SelectMembers(chain, keep);
    SelectDistinct(chain, keep);
    Sorting.Sorts(Sorting.Select(chain, keep), ReplayOrder);
  }

  lemma {:induction false} SelectDistinct(logs: seq<Log>, keep: Log -> bool)
    requires Sorting.Distinct(logs)
    ensures Sorting.Distinct(Sorting.Select(logs, keep))
    decreases |logs|
  {
    if logs != [] {
      var init, last := logs[..|logs| - 1], logs[|logs| - 1];
      SelectDistinct(init, keep);
      Sorting.SelectMembers(init, keep);
      assert last !in init;
    }
  }

  /** What a client answers during one connection: its logs, and which of them decode and have a header. */
  datatype Client = Client(chain: seq<Log>, good: Log -> bool)

  function Later(a: nat, b: nat): nat { if a < b then b else a }

  class Service {
    const deduper: D.Deduper
    var registry: Registrations
    var registryLoaded: bool
    var pending: Registrations
    var reconnectFrom: Option<nat>
    ghost var handled: set<Log>

    /** Pending sources are registered, with a boundary no later than their registration demands
        after the last delivered block. */
    ghost predicate Valid()
      reads this, deduper
    {
      deduper.Valid()
      && (!registryLoaded ==> pending == map[])
      && Keyed(registry) && Bounded(pending, registry, Boundary()) && AllPublished(handled, deduper.accepted)
    }

    function Boundary(): nat
      reads this
    {
      if reconnectFrom.None? then 0 else reconnectFrom.value
    }

    constructor (deduper: D.Deduper)
      requires deduper.Valid()
      ensures Valid() && this.deduper == deduper && registry == map[] && pending == map[] && reconnectFrom.None?
        && !registryLoaded
    {
      this.deduper := deduper;
      registry, registryLoaded, pending, reconnectFrom, handled := map[], false, map[], None, {};
    }

    /** Registry.Replace: refused, and left alone, when a market is not valid or a token or a source
        address is listed twice. */
    method Replace(markets: seq<Market>) returns (ok: bool, changed: bool)
      modifies this`registry
      ensures ok <==> Acceptable(markets)
      ensures ok ==> Lists(markets, registry) && (changed <==> registry != old(registry))
      ensures !ok ==> registry == old(registry)
    {
      var next := Register(markets);
      if next.None? { return false, false; }
      changed := next.value != registry;
      registry := next.value;
      return true, changed;
    }

    /** reconcile: new or changed sources become pending, vanished ones stop being pending. The
        first load is the baseline and queues nothing. */
    method Reconcile(loaded: Option<seq<Market>>) returns (ok: bool, changed: bool)
      requires Valid()
      modifies this`registry, this`registryLoaded, this`pending
      ensures Valid()
      ensures ok <==> loaded.Some? && Acceptable(loaded.value)
      ensures !ok ==> registry == old(registry) && pending == old(pending) && registryLoaded == old(registryLoaded)
      ensures ok ==> Lists(loaded.value, registry) && registryLoaded
      ensures ok && old(registryLoaded) ==> pending == Requeued(old(registry), registry, old(pending))
      ensures ok && !old(registryLoaded) ==> pending == map[]
      ensures ok && old(registryLoaded) ==> forall a :: a in pending <==>
        a in registry && (a in old(pending) || a !in old(registry) || old(registry)[a] != registry[a])
      ensures ok && old(registryLoaded) ==> forall a | a in pending ::
        if a in old(registry) && old(registry)[a] == registry[a] then a in old(pending) && pending[a] == old(pending)[a]
        else pending[a] == registry[a]
    {
      if loaded.None? { return false, false; }
      var previous := registry;
      ok, changed := Replace(loaded.value);
      if !ok { return; }
      ListsKeyed(loaded.value, registry);
      if !registryLoaded {
        registryLoaded := true;
        return;
      }
      RequeuedBounded(previous, registry, pending, Boundary());
      pending := Requeue(previous, registry, pending);
    }

    /** queueReconnectBackfill: every registered source that is not pending already. */
    method QueueReconnectBackfill(from: nat)
      requires Valid() && registryLoaded && reconnectFrom == Some(from)
      modifies this`pending
      ensures Valid()
      ensures pending == map a | a in registry ::
        if a in old(pending) then old(pending)[a] else Clipped(registry[a], from)
      ensures forall a | a in registry && a !in old(pending) ::
        pending[a].source == registry[a].source
        && pending[a].market == registry[a].market.(
             start := if registry[a].market.start < from then from else registry[a].market.start)
    {
      pending := map a | a in registry :: if a in pending then pending[a] else Clipped(registry[a], from);
    }

    /** handleLog: an undecodable log or one without a header is an error; a duplicate is dropped. */
    method HandleLog(d: Delivery, client: Client) returns (ok: bool)
      requires Valid()
      modifies this`reconnectFrom, this`handled, deduper
      ensures Valid()
      ensures ok <==> client.good(d.log)
      ensures handled == if ok && !d.removed then old(handled) + {d.log} else old(handled)
      ensures reconnectFrom == if deduper.accepted != old(deduper.accepted) && !d.removed && old(reconnectFrom).Some?
                               then Some(Later(old(reconnectFrom).value, d.log.block)) else old(reconnectFrom)
      ensures ok && D.Key(d.log.Key(), d.removed) !in D.Latest(old(deduper.accepted), deduper.capacity)
        ==> deduper.accepted == old(deduper.accepted) + [D.Key(d.log.Key(), d.removed)]
      ensures Boundary() >= old(Boundary()) && (reconnectFrom.Some? <==> old(reconnectFrom).Some?)
    {
      if !client.good(d.log) { return false; }
      D.LatestWithin(deduper.accepted, deduper.capacity);
      if !d.removed { handled := handled + {d.log}; }
      var accepted := deduper.Accept(d.log.Key(), d.removed);
      if accepted && !d.removed && reconnectFrom.Some? && d.log.block > reconnectFrom.value {
        reconnectFrom := Some(d.log.block);
      }
      return true;
    }

    /** Hand over logs in order; an error ends it. */
    method ReplayAll(logs: seq<Log>, client: Client) returns (ok: bool)
      requires Valid()
      modifies this`reconnectFrom, this`handled, deduper
      ensures Valid() && Boundary() >= old(Boundary()) && (reconnectFrom.Some? <==> old(reconnectFrom).Some?)
      ensures old(handled) <= handled && (ok <==> forall l | l in logs :: client.good(l))
      ensures ok ==> forall l | l in logs :: l in handled
    {
      for i := 0 to |logs|
        invariant Valid() && Boundary() >= old(Boundary()) && (reconnectFrom.Some? <==> old(reconnectFrom).Some?)
        invariant old(handled) <= handled && forall l | l in logs[..i] :: l in handled && client.good(l)
      {
        assert logs[i] in logs && logs[..i + 1] == logs[..i] + [logs[i]];
        var handledOne := HandleLog(Delivery(logs[i], false), client);
        if !handledOne { return false; }
      }
      assert logs[..|logs|] == logs;
      return true;
    }

    /** One source's replay: every log of its window, in order, through handleLog. */
    method ReplaySource(address: Address, r: Registration, head: nat, client: Client) returns (ok: bool)
      requires Valid()
      modifies this`reconnectFrom, this`handled, deduper
      ensures Valid() && Boundary() >= old(Boundary()) && (reconnectFrom.Some? <==> old(reconnectFrom).Some?)
      ensures old(handled) <= handled
      ensures ok <==> Replayable(r, head) && AllGood(client, address, r, head)
      ensures ok ==> Replayed(handled, client.chain, address, r, head)
    {
      var start := r.market.start;
      if start > head { return false; }
      if head - start > MAXIMUM_BACKFILL_BLOCKS { return false; }
      ok := ReplayAll(ReplayLogs(client.chain, address, r.source, start, head), client);
    }

    /** One round of backfillPending: a replayed source leaves the pending set. */
    method ReplayPending(a: Address, head: nat, client: Client) returns (ok: bool)
      requires Valid() && a in pending
      modifies this`reconnectFrom, this`handled, this`pending, deduper
      ensures Valid() && Boundary() >= old(Boundary()) && (reconnectFrom.Some? <==> old(reconnectFrom).Some?)
      ensures old(handled) <= handled && pending == if ok then old(pending) - {a} else old(pending)
      ensures ok <==> Replayable(old(pending)[a], head) && AllGood(client, a, old(pending)[a], head)
      ensures ok ==> FullyReplayed(handled, client.chain, a, old(pending)[a], Some(head))
    {
      ok := ReplaySource(a, pending[a], head, client);
      if ok {
        BoundedLess(pending, registry, Boundary(), a);
        pending := pending - {a};
      }
    }

    /** backfillPending: on success every pending source has been replayed to the head read now and
        nothing is pending; on failure whatever left the pending set had been replayed in full. */
    method BackfillPending(head: Option<nat>, client: Client) returns (ok: bool)
      requires Valid()
      modifies this`reconnectFrom, this`handled, this`pending, deduper
      ensures Valid() && Boundary() >= old(Boundary()) && (reconnectFrom.Some? <==> old(reconnectFrom).Some?)
      ensures old(handled) <= handled && Drained(old(pending), pending, handled, client.chain, head)
      ensures if ok then pending == map[] else Stuck(pending, head, client)
    {
      if pending == map[] { return true; }
      if head.None? {
        StuckHeadless(pending, client);
        return false;
      }
      var addresses := SortedAddresses(pending.Keys);
      for i := 0 to |addresses|
        invariant Valid() && Boundary() >= old(Boundary()) && (reconnectFrom.Some? <==> old(reconnectFrom).Some?)
        invariant old(handled) <= handled && Drained(old(pending), pending, handled, client.chain, head)
        invariant Remaining(old(pending), pending, addresses, i)
      {
        NextRemains(old(pending), pending, addresses, i);
        ghost var earlier, waiting := handled, pending;
        var replayed := ReplayPending(addresses[i], head.value, client);
        DrainedStays(old(pending), waiting, earlier, handled, client.chain, head);
        if !replayed {
          assert StuckAt(pending, head, client, addresses[i]);
          return false;
        }
        DrainedMore(old(pending), waiting, handled, client.chain, head, addresses[i]);
      }
      NoneRemains(old(pending), pending, addresses);
      return true;
    }

    /** Every registered source is queued from the last delivered block, or the head is remembered. */
    method Prepare(first: nat)
      requires Valid() && registryLoaded
      modifies this`pending, this`reconnectFrom
      ensures Valid() && Boundary() >= old(Boundary())
      ensures old(reconnectFrom).Some? ==> reconnectFrom == old(reconnectFrom) && pending.Keys == registry.Keys
      ensures old(reconnectFrom).None? ==> reconnectFrom == Some(first) && pending == old(pending)
    {
      if reconnectFrom.Some? {
        QueueReconnectBackfill(reconnectFrom.value);
      } else {
        BoundedLater(pending, registry, 0, first);
        reconnectFrom := Some(first);
      }
    }

    /** The setup of runConnection: reconcile, subscribe, queue the reconnect replay (or, the first
        time, remember the head), and replay what is pending. `first` is the head read on the first
        connection, `head` the one read after subscribing. */
    method Connect(loaded: Option<seq<Market>>, first: nat, head: Option<nat>, client: Client) returns (ok: bool)
      requires Valid()
      modifies this, deduper
      ensures Valid() && Boundary() >= old(Boundary())
      ensures ok ==> loaded.Some? && Acceptable(loaded.value) && Lists(loaded.value, registry) && pending == map[]
      ensures !ok ==> loaded.None? || !Acceptable(loaded.value) || Stuck(pending, head, client)
      ensures ok && old(reconnectFrom).Some? ==>
        Heard(loaded.value, old(reconnectFrom).value, head, client.chain, handled)
    {
      var changed;
      ok, changed := Reconcile(loaded);
      if !ok { return; }
      Prepare(first);
      ghost var queued := pending;
      ok := BackfillPending(head, client);
      if ok && old(reconnectFrom).Some? {
        ReconnectCovers(queued, registry, old(reconnectFrom).value, head, client.chain, handled);
        CoveredHeard(loaded.value, registry, old(reconnectFrom).value, head, client.chain, handled);
      }
    }
  }

  /** Every handled log has been published at some time: it passed the deduper then or before. */
  ghost predicate AllPublished(handled: set<Log>, accepted: seq<D.Key>) {
    forall l | l in handled :: D.Key(l.Key(), false) in accepted
  }

  // ---------------------------------------------------------------- registries

  ghost predicate OneOfEach(markets: seq<Market>) {
    forall i, j | 0 <= i < j < |markets| ::
      markets[i].token != markets[j].token && markets[i].Address() != markets[j].Address()
  }

  /** The lists that Replace takes. */
  ghost predicate Acceptable(markets: seq<Market>) {
    (forall m | m in markets :: m.Valid()) && OneOfEach(markets)
  }

  ghost predicate Lists(markets: seq<Market>, registry: Registrations) {
    (forall i | 0 <= i < |markets| ::
      markets[i].Address() in registry && registry[markets[i].Address()] == RegistrationOf(markets[i]))
    && forall a | a in registry :: exists i | 0 <= i < |markets| :: markets[i].Address() == a
  }

  /** The first n markets are registered under new tokens and new sources. */
  ghost predicate Registered(markets: seq<Market>, n: nat, next: Registrations, tokens: set<Address>) {
    n <= |markets| && OneOfEach(markets[..n]) && Lists(markets[..n], next)
    && forall t :: t in tokens <==> exists j | 0 <= j < n :: markets[j].token == t
  }

  /** Replace's loop over the market list. */
  method Register(markets: seq<Market>) returns (r: Option<Registrations>)
    ensures r.Some? <==> Acceptable(markets)
    ensures r.Some? ==> Lists(markets, r.value)
  {
    var next: Registrations := map[];
    var tokens: set<Address> := {};
    for i := 0 to |markets|
      invariant Registered(markets, i, next, tokens) && forall m | m in markets[..i] :: m.Valid()
    {
      var m := markets[i];
      assert m in markets && markets[..i + 1] == markets[..i] + [m];
      if !m.Valid() { return None; }
      if m.token in tokens || m.Address() in next {
        Repeats(markets, i, next, tokens);
        return None;
      }
      OneMore(markets, i, next, tokens);
      tokens := tokens + {m.token};
      next := next[m.Address() := RegistrationOf(m)];
    }
    assert markets[..|markets|] == markets;
    return Some(next);
  }

  lemma {:induction false} OneMore(markets: seq<Market>, i: nat, next: Registrations, tokens: set<Address>)
    requires Registered(markets, i, next, tokens) && i < |markets|
    requires markets[i].token !in tokens && markets[i].Address() !in next
    ensures Registered(markets, i + 1, next[markets[i].Address() := RegistrationOf(markets[i])],
                       tokens + {markets[i].token})
  {
    var m := markets[i];
    assert markets[..i + 1] == markets[..i] + [m];
    FreshMarket(markets[..i], m, next);
    forall j | 0 <= j < i ensures markets[j].token != m.token && markets[j].Address() != m.Address() {
      assert markets[..i][j].Address() in next;
    }
  }

  lemma {:induction false} Repeats(markets: seq<Market>, i: nat, next: Registrations, tokens: set<Address>)
    requires Registered(markets, i, next, tokens) && i < |markets|
    requires markets[i].token in tokens || markets[i].Address() in next
    ensures !OneOfEach(markets)
  {
    if markets[i].token in tokens {
      var j :| 0 <= j < i && markets[j].token == markets[i].token;
    } else {
      var j :| 0 <= j < i && markets[..i][j].Address() == markets[i].Address();
      assert markets[j].Address() == markets[i].Address();
    }
  }

  lemma {:induction false} FreshMarket(markets: seq<Market>, m: Market, next: Registrations)
    requires Lists(markets, next) && m.Address() !in next
    ensures Lists(markets + [m], next[m.Address() := RegistrationOf(m)])
  {
    var all, grown := markets + [m], next[m.Address() := RegistrationOf(m)];
    forall a | a in grown ensures exists i | 0 <= i < |all| :: all[i].Address() == a {
      if a == m.Address() {
        assert all[|markets|] == m;
      } else {
        var i :| 0 <= i < |markets| && markets[i].Address() == a;
        assert all[i] == markets[i];
      }
    }
  }

  /** The lists that are taken: every market names a token, a curve, a pool once graduated and a start block, and no
      two share a token or a followed address. */
  lemma {:induction false} AcceptableMeans(markets: seq<Market>)
    ensures Acceptable(markets) <==>
      (forall m | m in markets :: m.token != 0 && m.curve != 0 && (m.graduated ==> m.pool != 0) && m.start > 0)
      && forall i, j | 0 <= i < j < |markets| ::
          markets[i].token != markets[j].token
          && (if markets[i].graduated then markets[i].pool else markets[i].curve)
             != (if markets[j].graduated then markets[j].pool else markets[j].curve)
  {
    forall i, j | 0 <= i < j < |markets| ensures markets[i] in markets && markets[j] in markets {}
  }

  lemma {:induction false} ListsKeyed(markets: seq<Market>, registry: Registrations)
    requires Lists(markets, registry)
    ensures Keyed(registry)
  {
  }

  ghost predicate Keyed(registry: Registrations) {
    forall a | a in registry :: registry[a].source == registry[a].market.Kind() && a == registry[a].market.Address()
  }

  /** Pending sources are registered and their replay starts early enough. */
  ghost predicate Bounded(pending: Registrations, registry: Registrations, boundary: nat) {
    forall a | a in pending :: a in registry && pending[a].source == registry[a].source
      && pending[a].market.start <= Later(registry[a].market.start, boundary)
  }

  lemma {:induction false} RequeuedBounded(previous: Registrations, current: Registrations, pending: Registrations,
                                           boundary: nat)
    requires Bounded(pending, previous, boundary)
    ensures Bounded(Requeued(previous, current, pending), current, boundary)
  {
  }

  predicate Renewed(previous: Registrations, current: Registrations, a: Address)
    requires a in current
  {
    a !in previous || previous[a] != current[a]
  }

  /** The pending set after a registry change. */
  function Requeued(previous: Registrations, current: Registrations, pending: Registrations): Registrations {
    map a | a in current && (a in pending || Renewed(previous, current, a)) ::
      if Renewed(previous, current, a) then current[a] else pending[a]
  }

  predicate Noticed(previous: Registrations, current: Registrations, done: set<Address>, a: Address) {
    a in done && a in current && Renewed(previous, current, a)
  }

  /** Queue a source after looking at it. */
  function Looked(previous: Registrations, current: Registrations, queued: Registrations, a: Address): Registrations
    requires a in current
  {
    if Renewed(previous, current, a) then queued[a := current[a]] else queued
  }

  lemma {:induction false} LookedNotices(previous: Registrations, current: Registrations, pending: Registrations,
                                         queued: Registrations, done: set<Address>, a: Address)
    requires a in current && Queues(previous, current, pending, queued, done)
    ensures Queues(previous, current, pending, Looked(previous, current, queued, a), done + {a})
  {
  }

  /** What is queued once the sources in `done` have been looked at. */
  ghost predicate Queues(previous: Registrations, current: Registrations, pending: Registrations, queued: Registrations,
                         done: set<Address>) {
    (forall a :: a in queued <==> a in pending || Noticed(previous, current, done, a))
    && forall a | a in queued :: queued[a] == if Noticed(previous, current, done, a) then current[a] else pending[a]
  }

  /** reconcile's loop over the current registrations. */
  method LookAtAll(previous: Registrations, current: Registrations, pending: Registrations)
    returns (queued: Registrations)
    ensures Queues(previous, current, pending, queued, current.Keys)
  {
    queued := pending;
    var rest := current.Keys;
    ghost var done: set<Address> := {};
    while rest != {}
      invariant rest + done == current.Keys && Queues(previous, current, pending, queued, done)
      decreases |rest|
    {
      var a := Sorting.AnyOf(rest);
      LookedNotices(previous, current, pending, queued, done, a);
      queued := Looked(previous, current, queued, a);
      done := done + {a};
      rest := rest - {a};
    }
    assert done == current.Keys;
  }

  /** And its loop over the pending set, which drops what left the registry. */
  method Requeue(previous: Registrations, current: Registrations, pending: Registrations) returns (next: Registrations)
    ensures next == Requeued(previous, current, pending)
  {
    var queued := LookAtAll(previous, current, pending);
    assert forall a | a in current :: Noticed(previous, current, current.Keys, a) <==> Renewed(previous, current, a);
    next := map a | a in queued && a in current :: queued[a];
  }

  function Clipped(r: Registration, from: nat): Registration {
    r.(market := r.market.(start := Later(r.market.start, from)))
  }

  // ---------------------------------------------------------------- replays

  /** The window is not in the future and not too long. */
  predicate Replayable(r: Registration, head: nat) {
    r.market.start <= head && head - r.market.start <= MAXIMUM_BACKFILL_BLOCKS
  }

  /** Every log of the window decodes and has a header. */
  ghost predicate AllGood(client: Client, address: Address, r: Registration, head: nat) {
    forall l | l in client.chain && InReplay(l, address, r.source, r.market.start, head) :: client.good(l)
  }

  ghost predicate Replayed(handled: set<Log>, chain: seq<Log>, address: Address, r: Registration, head: nat) {
    forall l | l in chain && InReplay(l, address, r.source, r.market.start, head) :: l in handled
  }

  /** What is still pending is untouched, and what is no longer pending has been replayed in full. */
  ghost predicate Drained(before: Registrations, pending: Registrations, handled: set<Log>, chain: seq<Log>,
                          head: Option<nat>) {
    (forall a | a in pending :: a in before && pending[a] == before[a])
    && forall a | a in before && a !in pending :: FullyReplayed(handled, chain, a, before[a], head)
  }

  ghost predicate FullyReplayed(handled: set<Log>, chain: seq<Log>, a: Address, r: Registration, head: Option<nat>) {
    head.Some? && Replayable(r, head.value) && Replayed(handled, chain, a, r, head.value)
  }

  /** Some pending source cannot be replayed: no head, a window in the future or too long, or a bad log. */
  ghost predicate Stuck(pending: Registrations, head: Option<nat>, client: Client) {
    exists a :: StuckAt(pending, head, client, a)
  }

  ghost predicate StuckAt(pending: Registrations, head: Option<nat>, client: Client, a: Address) {
    a in pending && (head.None? || !Replayable(pending[a], head.value) || !AllGood(client, a, pending[a], head.value))
  }

  lemma {:induction false} StuckHeadless(pending: Registrations, client: Client)
    requires pending != map[]
    ensures Stuck(pending, None, client)
  {
    var a :| a in pending;
    assert StuckAt(pending, None, client, a);
  }

  lemma {:induction false} BoundedLess(pending: Registrations, registry: Registrations, boundary: nat, a: Address)
    requires Bounded(pending, registry, boundary)
    ensures Bounded(pending - {a}, registry, boundary)
  {
  }

  /** The sources still pending are those not reached yet. */
  ghost predicate Remaining(before: Registrations, pending: Registrations, addresses: seq<Address>, i: nat) {
    i <= |addresses| && (forall a :: a in addresses <==> a in before) && Sorting.Ascending(addresses, AddressOrder)
    && forall a :: a in pending <==> a in before && a !in addresses[..i]
  }

  lemma {:induction false} NextRemains(before: Registrations, pending: Registrations, addresses: seq<Address>, i: nat)
    requires Remaining(before, pending, addresses, i) && i < |addresses|
    ensures addresses[i] in pending && Remaining(before, pending - {addresses[i]}, addresses, i + 1)
  {
    NotYet(addresses, i);
    assert addresses[..i + 1] == addresses[..i] + [addresses[i]];
  }

  lemma {:induction false} NoneRemains(before: Registrations, pending: Registrations, addresses: seq<Address>)
    requires Remaining(before, pending, addresses, |addresses|)
    ensures pending == map[]
  {
    assert addresses[..|addresses|] == addresses;
    assert forall a :: a !in pending;
  }

  lemma {:induction false} DrainedStays(before: Registrations, pending: Registrations, earlier: set<Log>,
                                        handled: set<Log>,
                                        chain: seq<Log>, head: Option<nat>)
    requires Drained(before, pending, earlier, chain, head) && earlier <= handled
    ensures Drained(before, pending, handled, chain, head)
  {
    forall a | a in before && a !in pending ensures FullyReplayed(handled, chain, a, before[a], head) {
      assert FullyReplayed(earlier, chain, a, before[a], head);
    }
  }

  lemma {:induction false} DrainedMore(before: Registrations, pending: Registrations, handled: set<Log>,
                                       chain: seq<Log>,
                                       head: Option<nat>, a: Address)
    requires Drained(before, pending, handled, chain, head) && a in pending
      && FullyReplayed(handled, chain, a, pending[a], head)
    ensures Drained(before, pending - {a}, handled, chain, head)
  {
  }

  /** A log a reconnect owes: on the source's topics, from its start or the last delivered block, up to the head. */
  predicate Missed(r: Registration, from: nat, head: Option<nat>, l: Log) {
    head.Some? && OnTopic(r.source, l.payload) && Later(r.market.start, from) <= l.block <= head.value
  }

  /** Nothing a reconnect owes is unhandled, and no source needed more than the allowed window. */
  ghost predicate Covered(registry: Registrations, from: nat, head: Option<nat>, chain: seq<Log>, handled: set<Log>) {
    (forall a, l | a in registry && l in chain && l.address == a && Missed(registry[a], from, head, l) :: l in handled)
    && forall a | a in registry ::
      head.Some? && head.value <= Later(registry[a].market.start, from) + MAXIMUM_BACKFILL_BLOCKS
  }

  /** Every trade of a listed market from its start, or the last delivered block, up to the head has been handled,
      and that window was no longer than 512 blocks. */
  ghost predicate Heard(markets: seq<Market>, from: nat, head: Option<nat>, chain: seq<Log>, handled: set<Log>) {
    forall m | m in markets ::
      head.Some? && head.value <= (if m.start < from then from else m.start) + 512
      && forall l | l in chain && m.start <= l.block && from <= l.block <= head.value && TradeOf(m, l) :: l in handled
  }

  predicate TradeOf(m: Market, l: Log) {
    if m.graduated then l.address == m.pool && l.payload.Swap?
    else l.address == m.curve && (l.payload.Bought? || l.payload.Sold?)
  }

  lemma {:induction false} CoveredHeard(markets: seq<Market>, registry: Registrations, from: nat, head: Option<nat>,
                                        chain: seq<Log>, handled: set<Log>)
    requires Lists(markets, registry) && Covered(registry, from, head, chain, handled)
    ensures Heard(markets, from, head, chain, handled)
  {
    forall m | m in markets
      ensures head.Some? && head.value <= (if m.start < from then from else m.start) + 512
      ensures forall l | l in chain && m.start <= l.block && from <= l.block <= head.value && TradeOf(m, l) ::
        l in handled
    {
      var i :| 0 <= i < |markets| && markets[i] == m;
      assert m.Address() in registry && registry[m.Address()] == RegistrationOf(m);
      forall l | l in chain && m.start <= l.block && from <= l.block <= head.value && TradeOf(m, l)
        ensures l in handled
      {
        assert Missed(registry[m.Address()], from, head, l);
      }
    }
  }

  lemma {:induction false} ReconnectCovers(queued: Registrations, registry: Registrations, from: nat, head: Option<nat>,
                                           chain: seq<Log>, handled: set<Log>)
    requires queued.Keys == registry.Keys && Bounded(queued, registry, from)
    requires Drained(queued, map[], handled, chain, head)
    ensures Covered(registry, from, head, chain, handled)
  {
    forall a | a in registry ensures FullyReplayed(handled, chain, a, queued[a], head) {}
    forall a, l | a in registry && l in chain && l.address == a && Missed(registry[a], from, head, l)
      ensures l in handled
    {
      assert InReplay(l, a, queued[a].source, queued[a].market.start, head.value);
    }
  }

  lemma {:induction false} BoundedLater(pending: Registrations, registry: Registrations, boundary: nat, later: nat)
    requires Bounded(pending, registry, boundary) && boundary <= later
    ensures Bounded(pending, registry, later)
  {
  }

  predicate AddressOrder(a: Address, b: Address) { a < b }

  method SortedAddresses(keys: set<Address>) returns (addresses: seq<Address>)
    ensures forall a :: a in addresses <==> a in keys
    ensures Sorting.Ascending(addresses, AddressOrder)
  {
    addresses := [];
    var rest := keys;
    while rest != {}
      invariant rest <= keys && Sorting.Distinct(addresses) && forall a :: a in addresses <==> a in keys - rest
      decreases |rest|
    {
      var a := Sorting.AnyOf(rest);
      assert a !in addresses;
      Sorting.Members(addresses, a);
      addresses := addresses + [a];
      rest := rest - {a};
    }
    Sorting.Sorts(addresses, AddressOrder);
    addresses := Sorting.Sort(addresses, AddressOrder);
  }

  lemma {:induction false} NotYet(addresses: seq<Address>, i: nat)
    requires Sorting.Ascending(addresses, AddressOrder) && i < |addresses|
    ensures addresses[i] in addresses && addresses[i] !in addresses[..i]
  {
    assert forall j | 0 <= j < i :: AddressOrder(addresses[j], addresses[i]);
  }
}
