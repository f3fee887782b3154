/** What a batch must bring home, said without batches: the tracked logs of the chain. Whatever the
    batch size and the address chunking, the batches together collect exactly those, in chain order. */
module Batches {
  import opened Wrappers
  import opened Chain
  import opened Discovery
  import Pairing
  import Sorting

  // ---------------------------------------------------------------- tracked logs

  predicate AtRoot(l: Log, roots: Roots) {
    l.address == roots.factory || l.address == roots.feeManager || l.address == roots.registry
  }

  predicate FactoryLaunch(d: Log, roots: Roots) {
    d.payload.Launch? && d.address == roots.factory
  }

  /** A launched token's transfers and its curve's trades and graduation, excluded tokens included. */
  ghost predicate Flow(chain: seq<Log>, l: Log, roots: Roots) {
    exists d :: d in chain && FactoryLaunch(d, roots) && OfLaunch(FoundIn(d), l)
  }

  ghost predicate Settlement(chain: seq<Log>, l: Log, roots: Roots) {
    l.payload.Settled? && exists g :: g in chain && Settles(g, l) && Flow(chain, g, roots)
  }

  ghost predicate Tracked(chain: seq<Log>, l: Log, roots: Roots) {
    AtRoot(l, roots) || Flow(chain, l, roots) || Settlement(chain, l, roots) || FollowsDeployment(chain, l, roots)
  }

  ghost predicate TrackedIn(chain: seq<Log>, from: nat, to: nat, roots: Roots, l: Log) {
    from <= l.block <= to && Tracked(chain, l, roots)
  }

  /** The tracked logs of a range of blocks. */
  ghost function TrackedLogs(chain: seq<Log>, from: nat, to: nat, roots: Roots): seq<Log> {
    Select(chain, l => TrackedIn(chain, from, to, roots, l))
  }

  // ---------------------------------------------------------------- tracked logs, in their own fields

  /** A launch of the factory at or before this log, whose token transfers or whose curve trades or graduates in it. */
  ghost predicate OfALaunch(chain: seq<Log>, l: Log, roots: Roots) {
    exists d :: d in chain && Starts(d, l, roots)
  }

  predicate Starts(d: Log, l: Log, roots: Roots) {
    d.payload.Launch? && d.address == roots.factory && d.block <= l.block
    && ((l.payload.Transfer? && l.address == d.payload.token)
        || ((l.payload.Bought? || l.payload.Sold? || l.payload.Graduated?) && l.address == d.payload.curve))
  }

  /** A settlement at the manager that such a graduation of the same block names. */
  ghost predicate OfAGraduation(chain: seq<Log>, l: Log, roots: Roots) {
    l.payload.Settled?
    && exists g :: g in chain && g.payload.Graduated? && g.block == l.block && g.payload.manager == l.address
                   && OfALaunch(chain, g, roots)
  }

  /** An event of a treasury that the registry deployed at or before it. */
  ghost predicate OfADeployment(chain: seq<Log>, l: Log, roots: Roots) {
    exists d :: d in chain && Founds(d, l, roots)
  }

  predicate Founds(d: Log, l: Log, roots: Roots) {
    d.payload.Cto? && d.payload.event.TreasuryDeployed? && d.address == roots.registry && d.block <= l.block
    && l.payload.Cto? && l.address == d.payload.event.treasury
    && (l.payload.event.AcceptanceSubmitted? || l.payload.event.AssetRegistered? || l.payload.event.AssetTransferred?
        || l.payload.event.FeesPulled?)
  }

  /** What the batches collect: everything at the three roots, and of what started there the transfers, trades,
      graduations, settlements and treasury events. */
  lemma {:induction false} TrackedMeans(chain: seq<Log>, l: Log, roots: Roots)
    ensures Tracked(chain, l, roots) <==>
      l.address in {roots.factory, roots.feeManager, roots.registry}
      || OfALaunch(chain, l, roots) || OfAGraduation(chain, l, roots) || OfADeployment(chain, l, roots)
  {
    FlowMeans(chain, l, roots);
    DeploymentMeans(chain, l, roots);
    forall g | g in chain ensures Flow(chain, g, roots) <==> OfALaunch(chain, g, roots) { FlowMeans(chain, g, roots); }
  }

  lemma {:induction false} FlowMeans(chain: seq<Log>, l: Log, roots: Roots)
    ensures Flow(chain, l, roots) <==> OfALaunch(chain, l, roots)
  {
    forall d ensures FactoryLaunch(d, roots) && OfLaunch(FoundIn(d), l) <==> Starts(d, l, roots) {}
  }

  lemma {:induction false} DeploymentMeans(chain: seq<Log>, l: Log, roots: Roots)
    ensures FollowsDeployment(chain, l, roots) <==> OfADeployment(chain, l, roots)
  {
    forall d ensures OfTreasury(d, l, roots) <==> Founds(d, l, roots) {}
  }

  // ---------------------------------------------------------------- one batch

  ghost function KnownLogs(chain: seq<Log>, known: seq<Address>, from: nat, end: nat): seq<Log> {
    FilterLogs(chain, Query(from, end, known, AnyTopic))
  }

  ghost predicate InLaunchStage(logs: seq<Log>, end: nat, l: Log) {
    l in logs || (l.block <= end && FollowsLaunch(logs, l))
  }

  ghost predicate InTreasuryStage(logs: seq<Log>, end: nat, roots: Roots, l: Log) {
    l in logs || (l.block <= end && FollowsDeployment(logs, l, roots))
  }

  ghost function WithLaunches(chain: seq<Log>, logs: seq<Log>, end: nat): seq<Log> {
    Select(chain, l => InLaunchStage(logs, end, l))
  }

  ghost function WithTreasuries(chain: seq<Log>, logs: seq<Log>, end: nat, roots: Roots): seq<Log> {
    Select(chain, l => InTreasuryStage(logs, end, roots, l))
  }

  ghost function Batch(chain: seq<Log>, known: seq<Address>, from: nat, end: nat, roots: Roots): seq<Log> {
    WithTreasuries(chain, WithSettlements(chain, WithLaunches(chain, KnownLogs(chain, known, from, end), end)),
                   end, roots)
  }

  ghost predicate SameMembers(a: seq<Log>, b: seq<Log>) {
    forall l :: l in a <==> l in b
  }

  /** Why a batch is refused. Graduations are counted as listed, repeated finds included. */
  ghost predicate Hindered(e: ScanError, chain: seq<Log>, known: seq<Address>, from: nat, end: nat, roots: Roots,
                           genuine: Log -> bool) {
    var zero := KnownLogs(chain, known, from, end);
    var one := WithLaunches(chain, zero, end);
    var two := WithSettlements(chain, one);
    match e
    case NoAddresses => known == []
    case InvalidLaunch | ContradictoryLaunch | TooManyLaunches => !LaunchesBounded(zero)
    case InvalidGraduation => exists g :: g in one && Nameless(g)
    case TooManyGraduations => exists listed :: SameMembers(listed, one) && Graduations(listed) > 32
    case UnpairedGraduation => !Pairing.ValidGraduations(two, roots)
    case UntrustedTreasury => exists d :: d in two && Deployment(d, roots) && !genuine(d)
    case ContradictoryLogs => false
  }

  /** What an accepted batch has passed. */
  ghost predicate Sound(chain: seq<Log>, known: seq<Address>, from: nat, end: nat, roots: Roots, genuine: Log -> bool) {
    var zero := KnownLogs(chain, known, from, end);
    var two := WithSettlements(chain, WithLaunches(chain, zero, end));
    LaunchesBounded(zero) && Pairing.ValidGraduations(two, roots) && forall d | d in two && Deployment(d, roots) ::
      genuine(d)
  }

  /** The collection half of one round of Run's batch loop. */
  method CollectBatch(chain: seq<Log>, known: seq<Address>, from: nat, end: nat, roots: Roots,
                      genuine: Log -> bool, chunk: nat)
    returns (r: Result<seq<Log>, ScanError>)
    requires ChainLogs(chain) && chunk > 0
    ensures r.Ok? ==> r.value == Batch(chain, known, from, end, roots) && Sound(chain, known, from, end, roots, genuine)
    ensures r.Err? ==> Hindered(r.error, chain, known, from, end, roots, genuine)
  {
    var scanned := FilterLogsByAddressChunks(chain, Query(from, end, known, AnyTopic), chunk);
    if scanned.Err? { return scanned; }
    var launched := DiscoverLaunchLogs(chain, end, scanned.value);
    if launched.Err? { return launched; }
    ghost var one := WithLaunches(chain, KnownLogs(chain, known, from, end), end);
    assert SameMembers(launched.value, one);
    SettlementsSame(chain, launched.value, one);
    var settled := DiscoverGraduationSettlements(chain, launched.value, roots);
    if settled.Err? { return settled; }
    var owned := DiscoverTreasuryLogs(chain, end, settled.value, roots, genuine);
    if owned.Err? { return owned; }
    var out := MergeChainLogs(chain, owned.value);
    IsSelection(out, chain, l => InTreasuryStage(WithSettlements(chain, one), end, roots, l));
    return Ok(out);
  }

  lemma {:induction false} SettlementsSame(chain: seq<Log>, a: seq<Log>, b: seq<Log>)
    requires ChainLogs(chain) && SameMembers(a, b)
    ensures WithSettlements(chain, a) == WithSettlements(chain, b)
  {
    forall l ensures InSettlementStage(a, l) <==> InSettlementStage(b, l) {}
    SelectAscending(chain, l => InSettlementStage(a, l));
    IsSelection(WithSettlements(chain, a), chain, l => InSettlementStage(b, l));
  }

  // ---------------------------------------------------------------- completeness of a batch

  /** The addresses a scan must know before a batch: the roots and whatever was launched or deployed before it. */
  ghost predicate Covers(known: seq<Address>, chain: seq<Log>, before: nat, roots: Roots) {
    roots.factory in known && roots.feeManager in known && roots.registry in known
    && (forall d | d in chain && d.block < before && FactoryLaunch(d, roots) ::
          d.payload.token in known && d.payload.curve in known && d.payload.pool in known)
    && (forall d | d in chain && d.block < before && Deployment(d, roots) :: d.payload.event.treasury in known)
  }

  lemma {:induction false} BatchWithin(chain: seq<Log>, known: seq<Address>, from: nat, end: nat, roots: Roots, l: Log)
    requires l in Batch(chain, known, from, end, roots)
    ensures l in chain && from <= l.block <= end
  {
    var zero := KnownLogs(chain, known, from, end);
    var one := WithLaunches(chain, zero, end);
    var two := WithSettlements(chain, one);
    forall m | m in one ensures from <= m.block <= end {
      if m !in zero { assert FollowsLaunch(zero, m); }
    }
    forall m | m in two ensures from <= m.block <= end {
      if m !in one { assert FollowsGraduation(one, m); }
    }
    if l !in two { assert FollowsDeployment(two, l, roots); }
  }

  lemma {:induction false} FlowCollected(chain: seq<Log>, known: seq<Address>, from: nat, end: nat, roots: Roots,
                                         l: Log)
    requires Covers(known, chain, from, roots)
    requires l in chain && from <= l.block <= end && Flow(chain, l, roots)
    ensures l in WithLaunches(chain, KnownLogs(chain, known, from, end), end)
  {
    var d :| d in chain && FactoryLaunch(d, roots) && OfLaunch(FoundIn(d), l);
    var zero := KnownLogs(chain, known, from, end);
    if d.block < from {
      assert l in zero;
    } else {
      assert d in zero;
      assert FollowsLaunch(zero, l);
    }
  }

  lemma {:induction false} TrackedCollected(chain: seq<Log>, known: seq<Address>, from: nat, end: nat, roots: Roots,
                                            l: Log)
    requires Covers(known, chain, from, roots)
    requires l in chain && TrackedIn(chain, from, end, roots, l)
    ensures l in Batch(chain, known, from, end, roots)
  {
    var zero := KnownLogs(chain, known, from, end);
    var one := WithLaunches(chain, zero, end);
    var two := WithSettlements(chain, one);
    assert forall m | m in zero :: m in one;
    assert forall m | m in one :: m in two;
    if AtRoot(l, roots) {
      assert l in zero;
    } else if Flow(chain, l, roots) {
      FlowCollected(chain, known, from, end, roots, l);
    } else if Settlement(chain, l, roots) {
      var g :| g in chain && Settles(g, l) && Flow(chain, g, roots);
      FlowCollected(chain, known, from, end, roots, g);
      assert FollowsGraduation(one, l);
    } else {
      var d :| d in chain && OfTreasury(d, l, roots);
      if d.block < from {
        assert l in zero;
      } else {
        assert d in zero && d in two;
        assert FollowsDeployment(two, l, roots);
      }
    }
  }

  lemma {:induction false} BatchAscending(chain: seq<Log>, known: seq<Address>, from: nat, end: nat, roots: Roots)
    requires Ascending(chain)
    ensures Ascending(Batch(chain, known, from, end, roots))
  {
    var two := WithSettlements(chain, WithLaunches(chain, KnownLogs(chain, known, from, end), end));
    SelectAscending(chain, l => InTreasuryStage(two, end, roots, l));
  }

  /** A batch whose scan covers the past collects exactly the tracked logs of its range, in order. */
  lemma {:induction false} BatchComplete(chain: seq<Log>, known: seq<Address>, from: nat, end: nat, roots: Roots)
    requires ChainLogs(chain) && Covers(known, chain, from, roots)
    ensures Select(Batch(chain, known, from, end, roots), l => Tracked(chain, l, roots))
      == TrackedLogs(chain, from, end, roots)
  {
    var batch := Batch(chain, known, from, end, roots);
    var kept := Select(batch, l => Tracked(chain, l, roots));
    BatchAscending(chain, known, from, end, roots);
    SelectAscending(batch, l => Tracked(chain, l, roots));
    forall l ensures l in kept <==> l in chain && TrackedIn(chain, from, end, roots, l) {
      if l in kept { BatchWithin(chain, known, from, end, roots, l); }
      if l in chain && TrackedIn(chain, from, end, roots, l) { TrackedCollected(chain, known, from, end, roots, l); }
    }
    IsSelection(kept, chain, l => TrackedIn(chain, from, end, roots, l));
  }

  lemma {:induction false} KeysOfSelection(chain: seq<Log>, p: Log -> bool, q: Log -> bool, part: Pairing.Part,
                                           roots: Roots)
    requires forall l | l in chain && Pairing.KeyOf(l, part, roots).Some? :: p(l) == q(l)
    ensures Pairing.Keys(Sorting.Select(chain, p), part, roots) == Pairing.Keys(Sorting.Select(chain, q), part, roots)
    decreases |chain|
  {
    if chain != [] {
      var init, last := chain[..|chain| - 1], chain[|chain| - 1];
      assert last in chain && forall l | l in init :: l in chain;
      KeysOfSelection(init, p, q, part, roots);
      KeysSelect(chain, p, part, roots);
      KeysSelect(chain, q, part, roots);
    }
  }

  lemma {:induction false} KeysSelect(chain: seq<Log>, keep: Log -> bool, part: Pairing.Part, roots: Roots)
    requires chain != []
    ensures Pairing.Keys(Sorting.Select(chain, keep), part, roots)
         == Pairing.Keys(Sorting.Select(chain[..|chain| - 1], keep), part, roots)
            + (if keep(chain[|chain| - 1]) then Pairing.AsKeys(Pairing.KeyOf(chain[|chain| - 1], part, roots)) else [])
  {
    var kept := Sorting.Select(chain[..|chain| - 1], keep);
    if keep(chain[|chain| - 1]) {
      KeysAppend(kept, chain[|chain| - 1], part, roots);
    } else {
      assert kept + [] == kept;
    }
  }

  lemma {:induction false} KeysAppend(logs: seq<Log>, l: Log, part: Pairing.Part, roots: Roots)
    ensures Pairing.Keys(logs + [l], part, roots)
      == Pairing.Keys(logs, part, roots) + Pairing.AsKeys(Pairing.KeyOf(l, part, roots))
  {
    assert (logs + [l])[..|logs|] == logs;
  }

  /** Treasury events neither open nor settle a graduation, so the finished batch pairs when its
      settlement stage did. */
  lemma {:induction false} BatchPaired(chain: seq<Log>, known: seq<Address>, from: nat, end: nat, roots: Roots)
    requires Pairing.ValidGraduations(
      WithSettlements(chain, WithLaunches(chain, KnownLogs(chain, known, from, end), end)), roots)
    ensures Pairing.ValidGraduations(Batch(chain, known, from, end, roots), roots)
  {
    var one := WithLaunches(chain, KnownLogs(chain, known, from, end), end);
    var two := WithSettlements(chain, one);
    var batch := Batch(chain, known, from, end, roots);
    var p, q := (l: Log) => InSettlementStage(one, l), (l: Log) => InTreasuryStage(two, end, roots, l);
    forall l | l in chain && !l.payload.Cto? ensures p(l) == q(l) { assert l in two <==> InSettlementStage(one, l); }
    KeysOfSelection(chain, p, q, Pairing.Graduation, roots);
    KeysOfSelection(chain, p, q, Pairing.Settlement, roots);
    assert two == Sorting.Select(chain, p) && batch == Sorting.Select(chain, q);
    forall l | l in batch ensures Pairing.Identified(l) { assert l in chain; }
  }

  lemma {:induction false} SoundPaired(chain: seq<Log>, known: seq<Address>, from: nat, end: nat, roots: Roots,
                                       genuine: Log -> bool)
    requires Sound(chain, known, from, end, roots, genuine)
    ensures Pairing.ValidGraduations(Batch(chain, known, from, end, roots), roots)
  {
    BatchPaired(chain, known, from, end, roots);
  }

  /** Pool swaps are the exception: no follow-up query asks for them, so a swap is collected exactly
      when its pool was known before the batch. */
  lemma {:induction false} SwapCollectedIff(chain: seq<Log>, known: seq<Address>, from: nat, end: nat, roots: Roots,
                                            l: Log)
    requires l in chain && from <= l.block <= end && l.payload.Swap?
    ensures l in Batch(chain, known, from, end, roots) <==> l.address in known
  {
    var zero := KnownLogs(chain, known, from, end);
    var one := WithLaunches(chain, zero, end);
    var two := WithSettlements(chain, one);
    assert l in one <==> l in zero;
    assert l in two <==> l in one;
  }

  const LAUNCH := Log(1, 11, 21, 0, 0, 1, Launch(9, 2, 3, 1000, 800, 4))
  const FIRST_SWAP := Log(2, 12, 22, 0, 0, 4, Swap(5, -1))

  /** The batch size matters for them: a swap in the block after its pool's launch is lost by one batch
      over both blocks, and collected when the launch has a batch of its own. */
  lemma {:induction false} SwapNeedsSmallBatch(roots: Roots, later: seq<Address>)
    requires roots.factory == 1 && roots.feeManager != 4 && roots.registry != 4
    requires Covers(later, [LAUNCH, FIRST_SWAP], 2, roots)
    ensures ChainLogs([LAUNCH, FIRST_SWAP])
    ensures FIRST_SWAP !in Batch([LAUNCH, FIRST_SWAP], [roots.factory, roots.feeManager, roots.registry], 1, 2, roots)
    ensures FIRST_SWAP in Batch([LAUNCH, FIRST_SWAP], later, 2, 2, roots)
  {
    var chain := [LAUNCH, FIRST_SWAP];
    assert chain[0] == LAUNCH && chain[1] == FIRST_SWAP;
    assert LAUNCH in chain && FIRST_SWAP in chain && FactoryLaunch(LAUNCH, roots);
    SwapCollectedIff(chain, [roots.factory, roots.feeManager, roots.registry], 1, 2, roots, FIRST_SWAP);
    SwapCollectedIff(chain, later, 2, 2, roots, FIRST_SWAP);
  }

  // ---------------------------------------------------------------- batches together

  lemma {:induction false} Join(a: seq<Log>, b: seq<Log>, mid: nat)
    requires Ascending(a) && Ascending(b)
    requires (forall l | l in a :: l.block <= mid) && forall l | l in b :: l.block > mid
    ensures Ascending(a + b)
  {
    forall i, j | 0 <= i < j < |a + b| ensures LogLess((a + b)[i], (a + b)[j]) {
      if i < |a| <= j { assert a[i] in a && b[j - |a|] in b; }
    }
  }

  lemma {:induction false} EmptyRange(chain: seq<Log>, last: nat, roots: Roots)
    requires ChainLogs(chain)
    ensures TrackedLogs(chain, last + 1, last, roots) == []
  {
    IsSelection([], chain, l => TrackedIn(chain, last + 1, last, roots, l));
  }

  /** Where a range is cut does not matter. */
  lemma {:induction false} TrackedJoin(chain: seq<Log>, from: nat, mid: nat, to: nat, roots: Roots)
    requires ChainLogs(chain) && from <= mid + 1 && mid <= to
    ensures TrackedLogs(chain, from, mid, roots) + TrackedLogs(chain, mid + 1, to, roots)
      == TrackedLogs(chain, from, to, roots)
  {
    var a, b := TrackedLogs(chain, from, mid, roots), TrackedLogs(chain, mid + 1, to, roots);
    SelectAscending(chain, l => TrackedIn(chain, from, mid, roots, l));
    SelectAscending(chain, l => TrackedIn(chain, mid + 1, to, roots, l));
    Join(a, b, mid);
    IsSelection(a + b, chain, l => TrackedIn(chain, from, to, roots, l));
  }
}
