/** The derived tables of an index, over the logs of the blocks it indexes: curve columns, metrics, hourly
    buckets and holder balances. */
module MarketIndex {
  import opened Wrappers
  import opened Chain
  import opened Analytics
  import opened Sums
  import opened Tables
  import opened Views
  import opened Ledger
  import opened Tallies
  import B = Balances
  import LiveTail
  import Order
  import Reorg
  import Runs
  import Store

  // ---------------------------------------------------------------- balances over the logs

  /** What one log moves: transfers count when the token emitted them, launches by the token they name. */
  ghost function Moves(flow: B.Flow, l: Log, token: Address, a: Address): nat {
    match l.payload
    case Transfer(from, to, value) =>
      if l.address != token || a == ZERO_ADDRESS then 0
      else if flow.Received? && to == a then value
      else if flow.Sent? && from == a then value
      else 0
    case Launch(_, launched, curve, supply, _, _) =>
      if flow.Allotted? && launched == token && curve == a then supply else 0
    case _ => 0
  }

  ghost function Moved(flow: B.Flow, es: seq<Entry>, token: Address, a: Address): nat
    decreases |es|
  {
    if es == [] then 0 else Moved(flow, es[..|es| - 1], token, a) + Moves(flow, es[|es| - 1].log, token, a)
  }

  ghost predicate MintedIn(es: seq<Entry>, token: Address) {
    exists n | 0 <= n < |es| :: Mints(es[n].log, token)
  }

  ghost predicate Mints(l: Log, token: Address) {
    l.payload.Transfer? && l.address == token && l.payload.from == ZERO_ADDRESS
  }

  /** Received less sent, for tokens that the application shows; the launched supply counts for its curve
      only while no mint was collected. */
  ghost function HeldBy(es: seq<Entry>, token: Address, a: Address, cfg: Config): int {
    (if LaunchedIn(es, token, cfg) then Moved(B.Received, es, token, a) - Moved(B.Sent, es, token, a) else 0)
    + (if MintedIn(es, token) then 0 else Moved(B.Allotted, es, token, a))
  }

  ghost function EventMoves(v: View, flow: B.Flow, token: Address, a: Address): LogKey -> int {
    (k: LogKey) =>
      if k in v.events && v.events[k].hash in v.blocks then
        B.Amount(flow, B.Seen(v.events[k].data.address, v.events[k].data.payload), token, a)
      else 0
  }

  ghost function PosKeys(ps: seq<Order.Pos>): seq<LogKey> {
    seq(|ps|, i requires 0 <= i < |ps| => LogKey(ps[i].tx, ps[i].index))
  }

  ghost function SeenAt(v: View, ps: seq<Order.Pos>): seq<B.Seen>
    requires forall p | p in ps :: Listed(v, p)
  {
    seq(|ps|, i requires 0 <= i < |ps| =>
      assert ps[i] in ps && Listed(v, ps[i]);
      var e := v.events[LogKey(ps[i].tx, ps[i].index)].data;
      B.Seen(e.address, e.payload))
  }

  lemma {:induction false} SeenIs(v: View)
    ensures forall p | p in EventOrder(v) :: Listed(v, p)
    ensures SeenEvents(v) == SeenAt(v, EventOrder(v))
  {
    EventOrderListed(v);
  }

  lemma {:induction false} SeenFlows(v: View, flow: B.Flow, ps: seq<Order.Pos>, token: Address, a: Address)
    requires forall p | p in ps :: Listed(v, p)
    ensures B.Flowed(flow, SeenAt(v, ps), token, a) == SumOver(EventMoves(v, flow, token, a), PosKeys(ps))
    decreases |ps|
  {
    if ps != [] {
      var init, last := ps[..|ps| - 1], ps[|ps| - 1];
      assert last in ps && forall p | p in init :: p in ps;
      SeenFlows(v, flow, init, token, a);
      assert SeenAt(v, ps)[..|ps| - 1] == SeenAt(v, init);
      assert PosKeys(ps)[..|ps| - 1] == PosKeys(init);
    }
  }

  /** The rebuild sees every indexed event once. */
  lemma {:induction false} OrderKeys(v: View)
    ensures var ks := PosKeys(EventOrder(v));
      Distinct(ks) && forall k :: k in ks <==> k in v.events && v.events[k].hash in v.blocks
  {
    var ps := EventOrder(v);
    var ks := PosKeys(ps);
    forall i, j | 0 <= i < j < |ks| ensures ks[i] != ks[j] {
      assert ps[i] in ps && ps[j] in ps && Order.Less(ps[i], ps[j]);
    }
    forall k | k in v.events && v.events[k].hash in v.blocks ensures k in ks {
      var p := Order.Pos(v.events[k].block, v.events[k].data.txIndex, k.index, k.tx);
      assert p in ps;
      var i :| 0 <= i < |ps| && ps[i] == p;
      assert ks[i] == k;
    }
    forall k | k in ks ensures k in v.events && v.events[k].hash in v.blocks {
      var i :| 0 <= i < |ks| && ks[i] == k;
      assert ps[i] in ps;
    }
  }

  lemma {:induction false} EntryMoves(v: View, es: seq<Entry>, n: nat, flow: B.Flow, token: Address, a: Address,
                                      cfg: Config)
    requires EventsAre(v, es, cfg) && Timed(v, es) && n < |es|
    ensures EventMoves(v, flow, token, a)(es[n].log.Key()) == Moves(flow, es[n].log, token, a)
  {
    assert EventRow(v, es[..n], es[n].log, cfg);
  }

  lemma {:induction false} EntriesMove(v: View, es: seq<Entry>, n: nat, flow: B.Flow, token: Address, a: Address,
                                       cfg: Config)
    requires EventsAre(v, es, cfg) && Timed(v, es) && n <= |es|
    ensures Moved(flow, es[..n], token, a) == SumOver(EventMoves(v, flow, token, a), EntryKeys(es[..n]))
  {
    if n > 0 {
      EntriesMove(v, es, n - 1, flow, token, a, cfg);
      EntryMoves(v, es, n - 1, flow, token, a, cfg);
      assert es[..n][..n - 1] == es[..n - 1];
      KeySumStep(EventMoves(v, flow, token, a), es, n);
    }
  }

  lemma {:induction false} FlowsAre(v: View, es: seq<Entry>, flow: B.Flow, token: Address, a: Address, cfg: Config)
    requires EventsAre(v, es, cfg) && Timed(v, es) && Identified(es)
    ensures B.Flowed(flow, SeenEvents(v), token, a) == Moved(flow, es, token, a)
  {
    var f := EventMoves(v, flow, token, a);
    SeenIs(v);
    SeenFlows(v, flow, EventOrder(v), token, a);
    OrderKeys(v);
    EntryKeysDistinct(es);
    assert es[..|es|] == es;
    EntriesMove(v, es, |es|, flow, token, a, cfg);
    SameSum(f, PosKeys(EventOrder(v)), EntryKeys(es));
  }

  lemma {:induction false} MintIs(v: View, es: seq<Entry>, token: Address, cfg: Config)
    requires EventsAre(v, es, cfg) && Timed(v, es)
    ensures B.Minting(SeenEvents(v), token) <==> MintedIn(es, token)
  {
    SeenIs(v);
    var seen, ps := SeenEvents(v), EventOrder(v);
    if e :| e in seen && e.payload.Transfer? && e.address == token && e.payload.from == ZERO_ADDRESS {
      var i :| 0 <= i < |seen| && seen[i] == e;
      var k := LogKey(ps[i].tx, ps[i].index);
      assert ps[i] in ps;
      var n :| 0 <= n < |es| && es[n].log.Key() == k;
      assert EventRow(v, es[..n], es[n].log, cfg);
    }
    if n :| 0 <= n < |es| && Mints(es[n].log, token) {
      assert EventRow(v, es[..n], es[n].log, cfg);
      OrderKeys(v);
      assert es[n].log.Key() in PosKeys(ps);
      var i :| 0 <= i < |ps| && PosKeys(ps)[i] == es[n].log.Key();
      assert seen[i] in seen;
    }
  }

  /** The holders of a token are the accounts with a positive balance, with that balance. */
  ghost predicate HoldersAre(holders: map<Address, int>, es: seq<Entry>, token: Address, cfg: Config) {
    (forall a :: a in holders <==> HeldBy(es, token, a, cfg) > 0)
    && forall a | a in holders :: holders[a] == HeldBy(es, token, a, cfg)
  }

  lemma {:induction false} HoldersTally(v: View, es: seq<Entry>, token: Address, cfg: Config)
    requires Ledgered(v, es, cfg) && Timed(v, es) && Identified(es)
    ensures HoldersAre(B.Stored(SeenEvents(v), token, token in Views.Tokens(v)), es, token, cfg)
  {
    LedgeredEvents(v, es, cfg);
    LedgeredCurves(v, es, cfg);
    TokensLaunched(v, es, token, cfg);
    MintIs(v, es, token, cfg);
    forall a: Address
      ensures B.Balance(SeenEvents(v), token, token in Views.Tokens(v), a) == HeldBy(es, token, a, cfg)
    {
      FlowsAre(v, es, B.Received, token, a, cfg);
      FlowsAre(v, es, B.Sent, token, a, cfg);
      FlowsAre(v, es, B.Allotted, token, a, cfg);
    }
    forall a: Address ensures a in B.Stored(SeenEvents(v), token, token in Views.Tokens(v)) <==>
        B.Balance(SeenEvents(v), token, token in Views.Tokens(v), a) > 0
    {
      B.AccountBalance(SeenEvents(v), token, token in Views.Tokens(v), a);
    }
    forall a | a in B.Stored(SeenEvents(v), token, token in Views.Tokens(v))
      ensures B.Stored(SeenEvents(v), token, token in Views.Tokens(v))[a] == HeldBy(es, token, a, cfg)
    {
      B.AccountBalance(SeenEvents(v), token, token in Views.Tokens(v), a);
    }
  }

  // ---------------------------------------------------------------- every derived table

  /** Curve columns of every launch that the application shows. */
  ghost predicate CurvesSum(d: Derived, es: seq<Entry>, cfg: Config) {
    (forall k :: k in d.columns <==>
       exists n | 0 <= n < |es| :: es[n].log.Key() == k && Ledger.Launches(es[n].log, cfg))
    && forall n | 0 <= n < |es| && Ledger.Launches(es[n].log, cfg) ::
        es[n].log.Key() in d.columns && ColumnsAre(d.columns[es[n].log.Key()], es, es[n].log.payload.token, cfg)
  }

  /** Metrics of every such token. */
  ghost predicate MetricsSum(d: Derived, es: seq<Entry>, cfg: Config) {
    (forall t :: t in d.metrics <==> LaunchedIn(es, t, cfg))
    && forall t | t in d.metrics :: MetricsAre(d.metrics[t], es, t, cfg)
  }

  /** A log traded the token in the hour that starts at b. */
  ghost predicate TradedIn(es: seq<Entry>, token: Address, b: int, cfg: Config) {
    exists n: nat, a :: TradesIn(es, n, token, In(Bucketing(Every(3600)), b), a, cfg)
  }

  /** The buckets of every such token are the hours in which it traded. */
  ghost predicate BucketsSum(d: Derived, es: seq<Entry>, cfg: Config) {
    (forall t :: t in d.buckets <==> LaunchedIn(es, t, cfg))
    && forall t | t in d.buckets ::
        (forall b :: b in d.buckets[t] <==> TradedIn(es, t, b, cfg))
        && forall b | b in d.buckets[t] :: CandleIs(d.buckets[t][b], es, t, b, cfg)
  }

  /** Balances of every launched token, shown or not. */
  ghost predicate HoldersSum(d: Derived, es: seq<Entry>, cfg: Config) {
    (forall t :: t in d.holders <==>
       exists n | 0 <= n < |es| :: es[n].log.payload.Launch? && es[n].log.payload.token == t)
    && forall t | t in d.holders :: HoldersAre(d.holders[t], es, t, cfg)
  }

  lemma {:induction false} CurvesTally(v: View, es: seq<Entry>, cfg: Config)
    requires Ledgered(v, es, cfg) && Timed(v, es) && Identified(es)
    ensures CurvesSum(DerivedOf(v, cfg), es, cfg)
  {
    var d := DerivedOf(v, cfg);
    LedgeredCurves(v, es, cfg);
    forall n | 0 <= n < |es| && Ledger.Launches(es[n].log, cfg)
      ensures es[n].log.Key() in d.columns
      ensures ColumnsAre(d.columns[es[n].log.Key()], es, es[n].log.payload.token, cfg)
    {
      assert LaunchRows(v, es[n], cfg);
      ColumnsTally(v, es, es[n].log.payload.token, cfg);
    }
    forall k | k in d.columns
      ensures exists n | 0 <= n < |es| :: es[n].log.Key() == k && Ledger.Launches(es[n].log, cfg)
    {
      assert KeyOf(es, k);
      var n :| 0 <= n < |es| && es[n].log.Key() == k;
      assert LaunchRows(v, es[n], cfg);
    }
  }

  lemma {:induction false} ShownTokens(v: View, es: seq<Entry>, token: Address, cfg: Config)
    requires Ledgered(v, es, cfg)
    ensures token in Views.Tokens(v) <==> LaunchedIn(es, token, cfg)
    ensures token in Views.Tokens(v) ==> token !in cfg.excluded
  {
    LedgeredCurves(v, es, cfg);
    TokensLaunched(v, es, token, cfg);
  }

  lemma {:induction false} MetricsTallied(v: View, es: seq<Entry>, cfg: Config)
    requires Ledgered(v, es, cfg) && Timed(v, es) && Identified(es)
    ensures MetricsSum(DerivedOf(v, cfg), es, cfg)
  {
    var d := DerivedOf(v, cfg);
    forall t: Address ensures t in d.metrics <==> LaunchedIn(es, t, cfg) { ShownTokens(v, es, t, cfg); }
    forall t | t in d.metrics ensures MetricsAre(d.metrics[t], es, t, cfg) {
      ShownTokens(v, es, t, cfg);
      MetricsAreTallies(v, es, t, cfg);
    }
  }

  lemma {:induction false} HoursTraded(v: View, es: seq<Entry>, token: Address, b: int, cfg: Config)
    requires Ledgered(v, es, cfg) && Timed(v, es) && Identified(es) && token !in cfg.excluded
    ensures b in BucketKeys(History(v, token), Bucketing(Every(3600))) <==> TradedIn(es, token, b, cfg)
  {
    var h, hourly := History(v, token), Bucketing(Every(3600));
    LiveTail.HistoryStored(v, token);
    MembersOf(h, hourly, b);
    HistoryTraders(v, es, token, Members(h, hourly, b), In(hourly, b), cfg);
    var traders := TradersOf(Members(h, hourly, b));
    if p :| p in h && hourly(p.time) == b {
      assert p in Members(h, hourly, b) && p.trade.trader in traders;
    }
    if n: nat, a :| TradesIn(es, n, token, In(hourly, b), a, cfg) {
      assert a in traders;
      var p :| p in Members(h, hourly, b) && p.trade.trader == a;
      assert p in h;
    }
  }

  lemma {:induction false} BucketsTally(v: View, es: seq<Entry>, cfg: Config)
    requires Ledgered(v, es, cfg) && Timed(v, es) && Identified(es)
    ensures BucketsSum(DerivedOf(v, cfg), es, cfg)
  {
    var d := DerivedOf(v, cfg);
    forall t: Address ensures t in d.buckets <==> LaunchedIn(es, t, cfg) { ShownTokens(v, es, t, cfg); }
    forall t, b | t in d.buckets ensures b in d.buckets[t] <==> TradedIn(es, t, b, cfg) {
      ShownTokens(v, es, t, cfg);
      HoursTraded(v, es, t, b, cfg);
    }
    forall t, b | t in d.buckets && b in d.buckets[t] ensures CandleIs(d.buckets[t][b], es, t, b, cfg) {
      ShownTokens(v, es, t, cfg);
      CandlesAreTallies(v, es, t, cfg);
    }
  }

  lemma {:induction false} LaunchEvents(v: View, es: seq<Entry>, token: Address, cfg: Config)
    requires EventsAre(v, es, cfg)
    ensures token in Launched(v) <==>
      exists n | 0 <= n < |es| :: es[n].log.payload.Launch? && es[n].log.payload.token == token
  {
    if token in Launched(v) {
      var k :| k in v.events && v.events[k].data.payload.Launch? && v.events[k].data.payload.token == token;
      var n :| 0 <= n < |es| && es[n].log.Key() == k;
      assert EventRow(v, es[..n], es[n].log, cfg);
    }
    if n :| 0 <= n < |es| && es[n].log.payload.Launch? && es[n].log.payload.token == token {
      assert EventRow(v, es[..n], es[n].log, cfg);
    }
  }

  lemma {:induction false} HoldersTallied(v: View, es: seq<Entry>, cfg: Config)
    requires Ledgered(v, es, cfg) && Timed(v, es) && Identified(es)
    ensures HoldersSum(DerivedOf(v, cfg), es, cfg)
  {
    var d := DerivedOf(v, cfg);
    LedgeredEvents(v, es, cfg);
    forall t: Address ensures t in d.holders <==>
        exists n | 0 <= n < |es| :: es[n].log.payload.Launch? && es[n].log.payload.token == t
    {
      LaunchEvents(v, es, t, cfg);
      ShownTokens(v, es, t, cfg);
    }
    forall t | t in d.holders ensures HoldersAre(d.holders[t], es, t, cfg) { HoldersTally(v, es, t, cfg); }
  }

  /** Curve columns, metrics, hourly buckets and balances are sums over the logs of the chain. */
  ghost predicate DerivedSums(d: Derived, es: seq<Entry>, cfg: Config) {
    CurvesSum(d, es, cfg) && MetricsSum(d, es, cfg) && BucketsSum(d, es, cfg) && HoldersSum(d, es, cfg)
  }

  lemma {:induction false} ChainSums(chain: seq<Block>, cfg: Config)
    requires Proper(chain) && ViewOf(chain, cfg).Ok?
    ensures DerivedSums(DerivedOf(ViewOf(chain, cfg).value, cfg), Entries(chain), cfg)
  {
    ChainLedgered(chain, cfg);
    ChainTimed(chain, cfg);
    var v, es := ViewOf(chain, cfg).value, Entries(chain);
    CurvesTally(v, es, cfg);
    MetricsTallied(v, es, cfg);
    BucketsTally(v, es, cfg);
    HoldersTallied(v, es, cfg);
  }

  /** Nothing is derived from nothing. */
  lemma {:induction false} EmptySums(d: Derived, cfg: Config)
    requires d.columns == map[] && d.metrics == map[] && d.holders == map[] && d.buckets == map[]
    ensures DerivedSums(d, [], cfg)
  {
  }

  lemma {:induction false} EmptyColumns()
    ensures Store.SeenDerived(Store.EMPTY_STATE).columns == map[]
  {
  }

  lemma {:induction false} FaithfulSums(x: Runs.Index, cfg: Config)
    requires Runs.Faithful(x, cfg) && Proper(x.survivors)
    ensures DerivedSums(Store.SeenDerived(x.state), Entries(x.survivors), cfg)
  {
    if x.state == Store.EMPTY_STATE {
      EmptyColumns();
      EmptySums(Store.SeenDerived(x.state), cfg);
    } else {
      ChainSums(x.survivors, cfg);
    }
  }

  lemma {:induction false} FaithfulRows(x: Runs.Index, cfg: Config)
    requires Runs.Faithful(x, cfg) && Proper(x.survivors)
    ensures Ledgered(Store.Seen(x.state), Entries(x.survivors), cfg)
  {
    ChainLedgered(x.survivors, cfg);
  }

  /** So after any legal run, whatever was applied, refused, rewound or replaced on the way, the canonical rows
      are those of the logs of the surviving blocks, and the derived tables the sums over them. */
  lemma {:induction false} RunSums(steps: seq<Runs.Step>, cfg: Config)
    requires Runs.LegalRun(Runs.FRESH, steps, Runs.StoreExec(cfg))
    requires Proper(Runs.Run(Runs.FRESH, steps, Runs.StoreExec(cfg)).survivors)
    ensures var x := Runs.Run(Runs.FRESH, steps, Runs.StoreExec(cfg));
      Ledgered(Store.Seen(x.state), Entries(x.survivors), cfg)
      && DerivedSums(Store.SeenDerived(x.state), Entries(x.survivors), cfg)
  {
    var x := Runs.Run(Runs.FRESH, steps, Runs.StoreExec(cfg));
    Runs.FreshFaithful(cfg);
    Runs.StoreIsSound(cfg);
    Runs.RunFaithful(Runs.FRESH, steps, Runs.StoreExec(cfg), cfg);
    FaithfulRows(x, cfg);
    FaithfulSums(x, cfg);
  }
}
