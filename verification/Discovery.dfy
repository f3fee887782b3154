/** How one batch of Run collects logs. A range query only covers addresses already known, so
    launches, graduations and treasuries found in a batch trigger follow-up queries; the result
    must not depend on where the batches were cut. The node is a fixed chain of logs. */
module Discovery {
  import opened Wrappers
  import opened Chain
  import Pairing
  import Sorting

  // ---------------------------------------------------------------- the node

  predicate LogLess(a: Log, b: Log) {
    a.block < b.block || (a.block == b.block &&
      (a.txIndex < b.txIndex || (a.txIndex == b.txIndex && a.index < b.index)))
  }

  ghost predicate Ascending(s: seq<Log>) {
    Sorting.Ascending(s, LogLess)
  }

  /** (block hash, transaction hash, log index), the identity under which the indexer merges logs. */
  predicate SameIdentity(a: Log, b: Log) {
    a.blockHash == b.blockHash && a.Key() == b.Key()
  }

  ghost predicate Consistent(logs: seq<Log>) {
    forall a, b | a in logs && b in logs && a.blockHash == b.blockHash && a.tx == b.tx && a.index == b.index :: a == b
  }

  ghost predicate OnePlaceEach(logs: seq<Log>) {
    forall a, b | a in logs && b in logs && a != b :: a.block != b.block || a.txIndex != b.txIndex || a.index != b.index
  }

  /** By block, transaction index and log index. */
  ghost predicate InChainOrder(s: seq<Log>) {
    forall i, j | 0 <= i < j < |s| ::
      s[i].block < s[j].block || (s[i].block == s[j].block && s[i].txIndex < s[j].txIndex)
      || (s[i].block == s[j].block && s[i].txIndex == s[j].txIndex && s[i].index < s[j].index)
  }

  /** All logs of one chain, in order. */
  ghost predicate ChainLogs(chain: seq<Log>) {
    Ascending(chain) && Consistent(chain)
  }

  datatype Topics = AnyTopic | TransferTopic | CurveTopics | SettlementTopic | TreasuryTopics

  predicate Selected(p: Payload, topics: Topics) {
    match topics
    case AnyTopic => true
    case TransferTopic => p.Transfer?
    case CurveTopics => p.Bought? || p.Sold? || p.Graduated?
    case SettlementTopic => p.Settled?
    case TreasuryTopics => p.Cto? && KindOf(p.event).TreasuryKind?
  }

  datatype Query = Query(from: nat, to: nat, addresses: seq<Address>, topics: Topics)

  predicate Matches(q: Query, l: Log) {
    q.from <= l.block <= q.to && l.address in q.addresses && Selected(l.payload, q.topics)
  }

  function Select(logs: seq<Log>, keep: Log -> bool): (r: seq<Log>)
    ensures forall l :: l in r <==> l in logs && keep(l)
  {
    Sorting.SelectMembers(logs, keep);
    Sorting.Select(logs, keep)
  }

  /** eth_getLogs. */
  function FilterLogs(chain: seq<Log>, q: Query): (r: seq<Log>)
    ensures forall l :: l in r <==> l in chain && Matches(q, l)
  {
    Select(chain, l => Matches(q, l))
  }

  // ---------------------------------------------------------------- order and identity

  lemma {:induction false} SelectAscending(chain: seq<Log>, keep: Log -> bool)
    requires Ascending(chain)
    ensures Ascending(Select(chain, keep))
  {
    Sorting.SelectAscending(chain, keep, LogLess);
  }

  /** An ascending list of chain logs is the chain filtered. */
  lemma {:induction false} IsSelection(out: seq<Log>, chain: seq<Log>, keep: Log -> bool)
    requires Ascending(chain) && Ascending(out) && forall l :: l in out <==> l in chain && keep(l)
    ensures out == Select(chain, keep)
  {
    SelectAscending(chain, keep);
    Sorting.Unique(out, Select(chain, keep), LogLess);
  }

  lemma {:induction false} ChainPlaces(chain: seq<Log>)
    requires ChainLogs(chain)
    ensures OnePlaceEach(chain)
  {
    forall a, b | a in chain && b in chain && a != b
      ensures a.block != b.block || a.txIndex != b.txIndex || a.index != b.index
    {
      var i, j :| 0 <= i < |chain| && 0 <= j < |chain| && chain[i] == a && chain[j] == b;
      assert i < j ==> LogLess(a, b);
    }
  }

  // ---------------------------------------------------------------- canonicalLogs

  /** canonicalLogs: one log per identity, refused when two different logs share one, in chain order. */
  method CanonicalLogs(logs: seq<Log>) returns (r: Option<seq<Log>>)
    ensures r.Some? <==> Consistent(logs)
    ensures r.Some? ==> multiset(r.value) == multiset(set l | l in logs)
    ensures r.Some? && OnePlaceEach(logs) ==> Ascending(r.value) && InChainOrder(r.value)
  {
    var byIdentity: map<(Hash, LogKey), Log> := map[];
    var out: seq<Log> := [];
    for i := 0 to |logs|
      invariant forall k | k in byIdentity ::
        k == (byIdentity[k].blockHash, byIdentity[k].Key()) && byIdentity[k] in logs[..i]
      invariant forall l | l in logs[..i] ::
        (l.blockHash, l.Key()) in byIdentity && byIdentity[(l.blockHash, l.Key())] == l
      invariant Sorting.Distinct(out) && forall l :: l in out <==> l in logs[..i]
    {
      var l := logs[i];
      var key := (l.blockHash, l.Key());
      Sorting.Members(logs[..i], l);
      assert logs[..i + 1] == logs[..i] + [l];
      if key in byIdentity {
        if byIdentity[key] != l {
          assert byIdentity[key] in logs && l in logs && SameIdentity(byIdentity[key], l);
          return None;
        }
      } else {
        byIdentity := byIdentity[key := l];
        Sorting.Members(out, l);
        out := out + [l];
      }
    }
    assert logs[..|logs|] == logs;
    ghost var collected := out;
    out := Sorting.Sort(out, LogLess);
    Sorting.SortPermutes(collected, LogLess);
    OnceEach(collected, logs);
    if OnePlaceEach(logs) { Sorting.Sorts(collected, LogLess); }
    return Some(out);
  }

  lemma {:induction false} OnceEach(out: seq<Log>, logs: seq<Log>)
    requires Sorting.Distinct(out) && forall l :: l in out <==> l in logs
    ensures multiset(out) == multiset(set l | l in logs)
  {
    var s := set l | l in logs;
    forall l ensures multiset(out)[l] == multiset(s)[l] { Sorting.DistinctCounts(out, l); }
  }

  // ---------------------------------------------------------------- the range query

  datatype ScanError =
    | NoAddresses | ContradictoryLogs | InvalidLaunch | ContradictoryLaunch | TooManyLaunches
    | InvalidGraduation | TooManyGraduations | UnpairedGraduation | UntrustedTreasury

  /** filterLogsByAddressChunks: the answer does not depend on the chunk size. */
  method FilterLogsByAddressChunks(chain: seq<Log>, q: Query, chunk: nat) returns (r: Result<seq<Log>, ScanError>)
    requires ChainLogs(chain) && chunk > 0
    ensures q.addresses == [] ==> r == Err(NoAddresses)
    ensures q.addresses != [] ==> r == Ok(FilterLogs(chain, q))
  {
    if q.addresses == [] { return Err(NoAddresses); }
    var logs: seq<Log> := [];
    var start: nat := 0;
    while start < |q.addresses|
      invariant start <= |q.addresses|
      invariant forall l :: l in logs <==> l in chain && Matches(q.(addresses := q.addresses[..start]), l)
      decreases |q.addresses| - start
    {
      var stop: nat := if start + chunk > |q.addresses| then |q.addresses| else start + chunk;
      assert q.addresses[..stop] == q.addresses[..start] + q.addresses[start..stop];
      logs := logs + FilterLogs(chain, q.(addresses := q.addresses[start..stop]));
      start := stop;
    }
    assert q.addresses[..start] == q.addresses;
    assert q.(addresses := q.addresses[..start]) == q;
    var out := MergeChainLogs(chain, logs);
    IsSelection(out, chain, l => Matches(q, l));
    return Ok(out);
  }

  /** canonicalLogs on logs of one chain never finds a contradiction. */
  method MergeChainLogs(chain: seq<Log>, logs: seq<Log>) returns (out: seq<Log>)
    requires ChainLogs(chain) && forall l | l in logs :: l in chain
    ensures Ascending(out) && forall l :: l in out <==> l in logs
  {
    ChainPlaces(chain);
    var r := CanonicalLogs(logs);
    forall l ensures l in r.value <==> l in logs { assert l in r.value <==> l in multiset(r.value); }
    return r.value;
  }

  // ---------------------------------------------------------------- launches

  datatype Found = Found(token: Address, curve: Address, block: nat)

  function FoundIn(d: Log): Found
    requires d.payload.Launch?
  {
    Found(d.payload.token, d.payload.curve, d.block)
  }

  /** The follow-up logs of a launch, from its block on. */
  predicate OfLaunch(f: Found, l: Log) {
    f.block <= l.block
    && ((l.address == f.token && Selected(l.payload, TransferTopic))
      || (l.address == f.curve && Selected(l.payload, CurveTopics)))
  }

  ghost predicate FollowsLaunch(logs: seq<Log>, l: Log) {
    exists d :: d in logs && d.payload.Launch? && OfLaunch(FoundIn(d), l)
  }

  function LaunchTokens(logs: seq<Log>): set<Address> {
    set d | d in logs && d.payload.Launch? :: d.payload.token
  }

  ghost predicate LaunchesBounded(logs: seq<Log>) {
    (forall d | d in logs && d.payload.Launch? :: d.payload.token != ZERO_ADDRESS && d.payload.curve != ZERO_ADDRESS)
    && (forall c, d | c in logs && d in logs && c.payload.Launch? && d.payload.Launch?
      && c.payload.token == d.payload.token ::
          c.payload.curve == d.payload.curve && c.block == d.block)
    && |LaunchTokens(logs)| <= 32
  }

  ghost predicate Indexed(logs: seq<Log>, seen: map<Address, Found>) {
    (forall d | d in logs && d.payload.Launch? ::
       d.payload.token != ZERO_ADDRESS && d.payload.curve != ZERO_ADDRESS
       && d.payload.token in seen && seen[d.payload.token] == FoundIn(d))
    && (forall t | t in seen :: Backed(logs, t, seen[t]))
  }

  ghost predicate Backed(logs: seq<Log>, t: Address, f: Found) {
    exists d :: d in logs && d.payload.Launch? && d.payload.token == t && FoundIn(d) == f
  }

  lemma {:induction false} IndexedTokens(logs: seq<Log>, seen: map<Address, Found>)
    requires Indexed(logs, seen)
    ensures seen.Keys == LaunchTokens(logs)
    ensures LaunchesBounded(logs) <==> |seen| <= 32
  {
    assert seen.Keys == LaunchTokens(logs) by {
      forall t ensures t in seen.Keys <==> t in LaunchTokens(logs) {
        if t in seen { assert Backed(logs, t, seen[t]); }
      }
    }
    assert |seen| == |seen.Keys|;
  }

  lemma {:induction false} IndexGrows(logs: seq<Log>, seen: map<Address, Found>, d: Log)
    requires Indexed(logs, seen)
    ensures !d.payload.Launch? ==> Indexed(logs + [d], seen)
    ensures d.payload.Launch? && d.payload.token != ZERO_ADDRESS && d.payload.curve != ZERO_ADDRESS
            && (d.payload.token in seen ==> seen[d.payload.token] == FoundIn(d)) ==>
      Indexed(logs + [d], seen[d.payload.token := FoundIn(d)])
  {
    forall t | t in seen ensures Backed(logs + [d], t, seen[t]) {
      assert Backed(logs, t, seen[t]);
      var c :| c in logs && c.payload.Launch? && c.payload.token == t && FoundIn(c) == seen[t];
      assert c in logs + [d];
    }
    if d.payload.Launch? { assert Backed(logs + [d], d.payload.token, FoundIn(d)) by { assert d in logs + [d]; } }
  }

  method FindLaunches(logs: seq<Log>) returns (r: Result<map<Address, Found>, ScanError>)
    ensures r.Ok? <==> LaunchesBounded(logs)
    ensures r.Ok? ==> Indexed(logs, r.value)
    ensures r.Err? ==> r.error.InvalidLaunch? || r.error.ContradictoryLaunch? || r.error.TooManyLaunches?
  {
    var seen: map<Address, Found> := map[];
    for i := 0 to |logs|
      invariant Indexed(logs[..i], seen)
    {
      var d := logs[i];
      assert d in logs;
      IndexGrows(logs[..i], seen, d);
      assert logs[..i + 1] == logs[..i] + [d];
      if d.payload.Launch? {
        if d.payload.token == ZERO_ADDRESS || d.payload.curve == ZERO_ADDRESS { return Err(InvalidLaunch); }
        if d.payload.token in seen && seen[d.payload.token] != FoundIn(d) {
          assert Backed(logs[..i], d.payload.token, seen[d.payload.token]);
          return Err(ContradictoryLaunch);
        }
        seen := seen[d.payload.token := FoundIn(d)];
      }
    }
    assert logs[..|logs|] == logs;
    IndexedTokens(logs, seen);
    if |seen| > 32 { return Err(TooManyLaunches); }
    return Ok(seen);
  }

  ghost predicate FollowsOne(seen: map<Address, Found>, tokens: set<Address>, l: Log) {
    exists t :: t in tokens && t in seen && OfLaunch(seen[t], l)
  }

  /** The follow-up queries. The source visits launches in (block, token) order; the merge that
      follows in the same batch sorts everything again, so any order will do. */
  method QueryLaunches(chain: seq<Log>, end: nat, logs: seq<Log>, seen: map<Address, Found>) returns (out: seq<Log>)
    ensures forall l :: l in out <==> l in logs || (l in chain && l.block <= end && FollowsOne(seen, seen.Keys, l))
  {
    out := logs;
    var rest := seen.Keys;
    ghost var done: set<Address> := {};
    while rest != {}
      invariant rest + done == seen.Keys
      invariant forall l :: l in out <==> l in logs || (l in chain && l.block <= end && FollowsOne(seen, done, l))
      decreases |rest|
    {
      var t := Sorting.AnyOf(rest);
      var f := seen[t];
      ghost var before := out;
      var transfers := FilterLogs(chain, Query(f.block, end, [f.token], TransferTopic));
      var curveLogs := FilterLogs(chain, Query(f.block, end, [f.curve], CurveTopics));
      out := out + transfers + curveLogs;
      assert forall l :: l in out <==> l in before || (l in chain && l.block <= end && OfLaunch(f, l));
      FollowsMore(seen, done, t);
      done := done + {t};
      rest := rest - {t};
    }
    assert done == seen.Keys;
  }

  /** discoverLaunchLogs. */
  method DiscoverLaunchLogs(chain: seq<Log>, end: nat, logs: seq<Log>) returns (r: Result<seq<Log>, ScanError>)
    ensures r.Ok? <==> LaunchesBounded(logs)
    ensures r.Err? ==> r.error.InvalidLaunch? || r.error.ContradictoryLaunch? || r.error.TooManyLaunches?
    ensures r.Ok? ==> forall l ::
      l in r.value <==> l in logs || (l in chain && l.block <= end && FollowsLaunch(logs, l))
  {
    var found := FindLaunches(logs);
    if found.Err? { return Err(found.error); }
    var seen := found.value;
    var out := QueryLaunches(chain, end, logs, seen);
    forall l ensures FollowsOne(seen, seen.Keys, l) <==> FollowsLaunch(logs, l) { FollowsSame(logs, seen, l); }
    return Ok(out);
  }

  lemma {:induction false} FollowsMore(seen: map<Address, Found>, done: set<Address>, t: Address)
    requires t in seen
    ensures forall l :: FollowsOne(seen, done + {t}, l) <==> FollowsOne(seen, done, l) || OfLaunch(seen[t], l)
  {
    forall l ensures FollowsOne(seen, done + {t}, l) <==> FollowsOne(seen, done, l) || OfLaunch(seen[t], l) {
      if FollowsOne(seen, done, l) {
        var u :| u in done && u in seen && OfLaunch(seen[u], l);
        assert u in done + {t};
      }
      if OfLaunch(seen[t], l) { assert t in done + {t}; }
    }
  }

  lemma {:induction false} FollowsSame(logs: seq<Log>, seen: map<Address, Found>, l: Log)
    requires Indexed(logs, seen)
    ensures FollowsOne(seen, seen.Keys, l) <==> FollowsLaunch(logs, l)
  {
    if FollowsOne(seen, seen.Keys, l) {
      var t :| t in seen.Keys && t in seen && OfLaunch(seen[t], l);
      assert Backed(logs, t, seen[t]);
      var d :| d in logs && d.payload.Launch? && d.payload.token == t && FoundIn(d) == seen[t];
      assert OfLaunch(FoundIn(d), l);
    }
    if FollowsLaunch(logs, l) {
      var d :| d in logs && d.payload.Launch? && OfLaunch(FoundIn(d), l);
      assert d.payload.token in seen.Keys;
    }
  }

  // ---------------------------------------------------------------- settlements

  ghost predicate FollowsGraduation(logs: seq<Log>, l: Log) {
    l.payload.Settled? && exists g :: g in logs && Settles(g, l)
  }

  /** A settlement at the declared manager in the graduation's own block. */
  predicate Settles(g: Log, l: Log) {
    g.payload.Graduated? && g.payload.manager == l.address && g.block == l.block
  }

  predicate GraduationNamed(g: Log) {
    g.payload.Graduated? ==> g.payload.token != ZERO_ADDRESS && g.payload.manager != ZERO_ADDRESS
  }

  function Graduations(logs: seq<Log>): (n: nat) {
    if logs == [] then 0
    else Graduations(logs[..|logs| - 1]) + (if logs[|logs| - 1].payload.Graduated? then 1 else 0)
  }

  /** A graduation without a token or a manager. */
  ghost predicate Nameless(g: Log) {
    g.payload.Graduated? && (g.payload.token == 0 || g.payload.manager == 0)
  }

  ghost predicate GraduationsBounded(logs: seq<Log>) {
    (forall g | g in logs :: !Nameless(g)) && Graduations(logs) <= 32
  }

  ghost predicate QueriesOf(logs: seq<Log>, queries: set<(nat, Address)>) {
    forall q :: q in queries <==> exists g :: g in logs && g.payload.Graduated? && q == (g.block, g.payload.manager)
  }

  lemma {:induction false} QueriesGrow(logs: seq<Log>, queries: set<(nat, Address)>, g: Log)
    requires QueriesOf(logs, queries)
    ensures QueriesOf(logs + [g], if g.payload.Graduated? then queries + {(g.block, g.payload.manager)} else queries)
  {
    var more := if g.payload.Graduated? then queries + {(g.block, g.payload.manager)} else queries;
    forall q
      ensures q in more <==> exists h :: h in logs + [g] && h.payload.Graduated? && q == (h.block, h.payload.manager)
    {
      if q in queries {
        var h :| h in logs && h.payload.Graduated? && q == (h.block, h.payload.manager);
        assert h in logs + [g];
      }
      if q in more && q !in queries { assert g in logs + [g]; }
    }
  }

  ghost predicate Unbounded(logs: seq<Log>, e: ScanError) {
    (e.InvalidGraduation? && exists g :: g in logs && Nameless(g))
    || (e.TooManyGraduations? && Graduations(logs) > 32)
  }

  method FindGraduations(logs: seq<Log>) returns (r: Result<set<(nat, Address)>, ScanError>)
    ensures r.Ok? <==> GraduationsBounded(logs)
    ensures r.Ok? ==> QueriesOf(logs, r.value)
    ensures r.Err? ==> Unbounded(logs, r.error)
  {
    var count: nat := 0;
    var queries: set<(nat, Address)> := {};
    for i := 0 to |logs|
      invariant count == Graduations(logs[..i]) && QueriesOf(logs[..i], queries)
      invariant forall g | g in logs[..i] :: !Nameless(g)
    {
      var g := logs[i];
      assert g in logs;
      QueriesGrow(logs[..i], queries, g);
      assert logs[..i + 1] == logs[..i] + [g] && logs[..i + 1][..i] == logs[..i];
      if !GraduationNamed(g) { return Err(InvalidGraduation); }
      if g.payload.Graduated? {
        count := count + 1;
        queries := queries + {(g.block, g.payload.manager)};
      }
    }
    assert logs[..|logs|] == logs;
    if count > 32 { return Err(TooManyGraduations); }
    return Ok(queries);
  }

  ghost predicate Asked(done: set<(nat, Address)>, l: Log) {
    l.payload.Settled? && (l.block, l.address) in done
  }

  method QuerySettlements(chain: seq<Log>, logs: seq<Log>, queries: set<(nat, Address)>) returns (out: seq<Log>)
    ensures forall l :: l in out <==> l in logs || (l in chain && Asked(queries, l))
  {
    out := logs;
    var rest := queries;
    ghost var done: set<(nat, Address)> := {};
    while rest != {}
      invariant rest + done == queries
      invariant forall l :: l in out <==> l in logs || (l in chain && Asked(done, l))
      decreases |rest|
    {
      var q := Sorting.AnyOf(rest);
      ghost var before := out;
      out := out + FilterLogs(chain, Query(q.0, q.0, [q.1], SettlementTopic));
      assert forall l :: l in out <==> l in before || (l in chain && l.payload.Settled? && (l.block, l.address) == q);
      done := done + {q};
      rest := rest - {q};
    }
    assert done == queries;
  }

  ghost predicate InSettlementStage(logs: seq<Log>, l: Log) {
    l in logs || FollowsGraduation(logs, l)
  }

  /** The chain's logs that a batch holds once its graduations' settlements are added. */
  ghost function WithSettlements(chain: seq<Log>, logs: seq<Log>): seq<Log> {
    Select(chain, l => InSettlementStage(logs, l))
  }

  /** discoverGraduationSettlements, including its pairing of what it collected. */
  method DiscoverGraduationSettlements(chain: seq<Log>, logs: seq<Log>, roots: Roots)
    returns (r: Result<seq<Log>, ScanError>)
    requires ChainLogs(chain) && forall l | l in logs :: l in chain
    ensures r.Ok? <==> GraduationsBounded(logs) && Pairing.ValidGraduations(WithSettlements(chain, logs), roots)
    ensures r.Ok? ==> r.value == WithSettlements(chain, logs)
    ensures r.Err? && !r.error.UnpairedGraduation? ==> Unbounded(logs, r.error)
    ensures r == Err(UnpairedGraduation) ==> !Pairing.ValidGraduations(WithSettlements(chain, logs), roots)
  {
    var found := FindGraduations(logs);
    if found.Err? { return Err(found.error); }
    var out := QuerySettlements(chain, logs, found.value);
    forall l ensures Asked(found.value, l) <==> FollowsGraduation(logs, l) { AskedSame(logs, found.value, l); }
    out := MergeChainLogs(chain, out);
    IsSelection(out, chain, l => InSettlementStage(logs, l));
    var paired := Pairing.ValidateGraduationPairs(out, roots);
    if !paired { return Err(UnpairedGraduation); }
    return Ok(out);
  }

  lemma {:induction false} AskedSame(logs: seq<Log>, queries: set<(nat, Address)>, l: Log)
    requires QueriesOf(logs, queries)
    ensures Asked(queries, l) <==> FollowsGraduation(logs, l)
  {
    var q := (l.block, l.address);
    if Asked(queries, l) {
      var g :| g in logs && g.payload.Graduated? && q == (g.block, g.payload.manager);
      assert Settles(g, l);
    }
    if FollowsGraduation(logs, l) {
      var g :| g in logs && Settles(g, l);
      assert q == (g.block, g.payload.manager);
    }
  }

  // ---------------------------------------------------------------- treasuries

  predicate Deployment(d: Log, roots: Roots) {
    d.address == roots.registry && d.payload.Cto? && d.payload.event.TreasuryDeployed?
  }

  /** A treasury's own events from its deployment on. */
  predicate OfTreasury(d: Log, l: Log, roots: Roots) {
    Deployment(d, roots) && d.block <= l.block && l.address == d.payload.event.treasury
    && Selected(l.payload, TreasuryTopics)
  }

  ghost predicate FollowsDeployment(logs: seq<Log>, l: Log, roots: Roots) {
    exists d :: d in logs && OfTreasury(d, l, roots)
  }

  /** discoverCTOTreasuryLogs. `genuine` stands for the on-chain checks of a deployment. */
  method DiscoverTreasuryLogs(chain: seq<Log>, end: nat, logs: seq<Log>, roots: Roots, genuine: Log -> bool)
    returns (r: Result<seq<Log>, ScanError>)
    requires ChainLogs(chain) && forall l | l in logs :: l in chain
    ensures r.Ok? <==> forall d | d in logs && Deployment(d, roots) :: genuine(d)
    ensures r.Err? ==> r.error.UntrustedTreasury?
    ensures r.Ok? ==> Ascending(r.value)
    ensures r.Ok? ==> forall l ::
      l in r.value <==> l in logs || (l in chain && l.block <= end && FollowsDeployment(logs, l, roots))
  {
    var deployments: seq<Log> := [];
    for i := 0 to |logs|
      invariant forall d :: d in deployments <==> d in logs[..i] && Deployment(d, roots)
      invariant forall d | d in deployments :: genuine(d)
    {
      var d := logs[i];
      assert d in logs;
      assert logs[..i + 1] == logs[..i] + [d];
      if Deployment(d, roots) {
        if !genuine(d) { return Err(UntrustedTreasury); }
        deployments := deployments + [d];
      }
    }
    assert logs[..|logs|] == logs;
    var out := logs;
    for i := 0 to |deployments|
      invariant forall l ::
        l in out <==> l in logs || (l in chain && l.block <= end && FollowsDeployment(deployments[..i], l, roots))
    {
      var d := deployments[i];
      assert d in deployments;
      ghost var before := out;
      out := out + FilterLogs(chain, Query(d.block, end, [d.payload.event.treasury], TreasuryTopics));
      assert forall l :: l in out <==> l in before || (l in chain && l.block <= end && OfTreasury(d, l, roots));
      assert deployments[..i + 1] == deployments[..i] + [d];
      DeploymentsGrow(deployments[..i], d, roots);
    }
    assert deployments[..|deployments|] == deployments;
    forall l ensures FollowsDeployment(deployments, l, roots) <==> FollowsDeployment(logs, l, roots) {
      if d :| d in logs && OfTreasury(d, l, roots) { assert d in deployments; }
    }
    out := MergeChainLogs(chain, out);
    return Ok(out);
  }

  lemma {:induction false} DeploymentsGrow(ds: seq<Log>, d: Log, roots: Roots)
    ensures forall l ::
      FollowsDeployment(ds + [d], l, roots) <==> FollowsDeployment(ds, l, roots) || OfTreasury(d, l, roots)
  {
    forall l
      ensures FollowsDeployment(ds + [d], l, roots) <==> FollowsDeployment(ds, l, roots) || OfTreasury(d, l, roots)
    {
      if FollowsDeployment(ds, l, roots) {
        var c :| c in ds && OfTreasury(c, l, roots);
        assert c in ds + [d];
      }
      if OfTreasury(d, l, roots) { assert d in ds + [d]; }
    }
  }
}
