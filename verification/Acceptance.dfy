/** Whether a batch is accepted does not depend on where the range was cut, as long as the bound on
    launches is not what decides: every check of the collection stage is a check of the tracked logs. */
module Acceptance {
  import opened Chain
  import opened Discovery
  import opened Batches
  import Pairing
  import Sorting

  // ---------------------------------------------------------------- who emits what

  /** An address the indexer may come to watch. */
  ghost predicate Watched(chain: seq<Log>, a: Address, roots: Roots) {
    a == roots.factory || a == roots.feeManager || a == roots.registry
    || (exists d :: d in chain && FactoryLaunch(d, roots) && a in {d.payload.token, d.payload.curve, d.payload.pool})
    || (exists d :: d in chain && Deployment(d, roots) && a == d.payload.event.treasury)
  }

  /** Watched contracts do what the protocol's do: only the factory launches, only the curve of a launch
      graduates, and only a declared manager settles. */
  ghost predicate Behaves(chain: seq<Log>, roots: Roots) {
    forall l | l in chain && Watched(chain, l.address, roots) ::
      (l.payload.Launch? ==> l.address == roots.factory)
      && (l.payload.Graduated? ==> Flow(chain, l, roots))
      && (l.payload.Settled? ==> Settlement(chain, l, roots))
  }

  /** A scan set: everything that was launched or deployed before, and nothing else. */
  ghost predicate Knows(known: seq<Address>, chain: seq<Log>, before: nat, roots: Roots) {
    Covers(known, chain, before, roots) && forall a | a in known :: Watched(chain, a, roots)
  }

  // ---------------------------------------------------------------- the checks, on the tracked logs

  ghost predicate Fine(logs: seq<Log>, roots: Roots, genuine: Log -> bool) {
    LaunchesBounded(logs) && Pairing.ValidGraduations(logs, roots) && forall d | d in logs && Deployment(d, roots) ::
      genuine(d)
  }

  lemma {:induction false} SameLaunches(a: seq<Log>, b: seq<Log>)
    requires forall d: Log | d.payload.Launch? :: d in a <==> d in b
    ensures LaunchesBounded(a) <==> LaunchesBounded(b)
  {
    assert LaunchTokens(a) == LaunchTokens(b);
  }

  lemma {:induction false} LaunchesTracked(chain: seq<Log>, known: seq<Address>, from: nat, end: nat, roots: Roots)
    requires Knows(known, chain, from, roots) && Behaves(chain, roots)
    ensures LaunchesBounded(KnownLogs(chain, known, from, end))
      <==> LaunchesBounded(TrackedLogs(chain, from, end, roots))
  {
    var zero, tracked := KnownLogs(chain, known, from, end), TrackedLogs(chain, from, end, roots);
    forall d: Log | d.payload.Launch? ensures d in zero <==> d in tracked {
      if d in zero { assert Watched(chain, d.address, roots); }
    }
    SameLaunches(zero, tracked);
  }

  /** A graduation or settlement of the batch is a tracked one. */
  lemma {:induction false} PairLogTracked(chain: seq<Log>, known: seq<Address>, from: nat, end: nat, roots: Roots,
                                          l: Log)
    requires Knows(known, chain, from, roots) && Behaves(chain, roots)
    requires l in WithSettlements(chain, WithLaunches(chain, KnownLogs(chain, known, from, end), end))
    requires l.payload.Graduated? || l.payload.Settled?
    ensures TrackedIn(chain, from, end, roots, l)
  {
    var zero := KnownLogs(chain, known, from, end);
    var one := WithLaunches(chain, zero, end);
    if l in one {
      LaunchStageTracked(chain, known, from, end, roots, l);
    } else {
      var g :| g in one && Settles(g, l);
      LaunchStageTracked(chain, known, from, end, roots, g);
    }
  }

  lemma {:induction false} LaunchStageTracked(chain: seq<Log>, known: seq<Address>, from: nat, end: nat, roots: Roots,
                                              l: Log)
    requires Knows(known, chain, from, roots) && Behaves(chain, roots)
    requires l in WithLaunches(chain, KnownLogs(chain, known, from, end), end)
    requires l.payload.Graduated? || l.payload.Settled?
    ensures TrackedIn(chain, from, end, roots, l) && (l.payload.Graduated? ==> Flow(chain, l, roots))
  {
    var zero := KnownLogs(chain, known, from, end);
    if l in zero {
      assert Watched(chain, l.address, roots);
    } else {
      var d :| d in zero && d.payload.Launch? && OfLaunch(FoundIn(d), l);
      assert Watched(chain, d.address, roots);
      assert FactoryLaunch(d, roots);
    }
  }

  /** And every tracked one is in the batch before the treasury stage. */
  lemma {:induction false} PairLogCollected(chain: seq<Log>, known: seq<Address>, from: nat, end: nat, roots: Roots,
                                            l: Log)
    requires Covers(known, chain, from, roots) && l in chain && TrackedIn(chain, from, end, roots, l)
    requires l.payload.Graduated? || l.payload.Settled?
    ensures l in WithSettlements(chain, WithLaunches(chain, KnownLogs(chain, known, from, end), end))
  {
    TrackedCollected(chain, known, from, end, roots, l);
  }

  lemma {:induction false} PairsTracked(chain: seq<Log>, known: seq<Address>, from: nat, end: nat, roots: Roots)
    requires Knows(known, chain, from, roots) && Behaves(chain, roots)
    ensures Pairing.ValidGraduations(
              WithSettlements(chain, WithLaunches(chain, KnownLogs(chain, known, from, end), end)), roots)
       <==> Pairing.ValidGraduations(TrackedLogs(chain, from, end, roots), roots)
  {
    var one := WithLaunches(chain, KnownLogs(chain, known, from, end), end);
    var two, tracked := WithSettlements(chain, one), TrackedLogs(chain, from, end, roots);
    var p, q := (l: Log) => InSettlementStage(one, l), (l: Log) => TrackedIn(chain, from, end, roots, l);
    forall l | l in chain && (l.payload.Graduated? || l.payload.Settled?)
      ensures p(l) == q(l) && (l in two <==> l in tracked)
    {
      assert l in two <==> InSettlementStage(one, l);
      if l in two { PairLogTracked(chain, known, from, end, roots, l); }
      if q(l) { PairLogCollected(chain, known, from, end, roots, l); }
    }
    KeysOfSelection(chain, p, q, Pairing.Graduation, roots);
    KeysOfSelection(chain, p, q, Pairing.Settlement, roots);
    assert two == Sorting.Select(chain, p) && tracked == Sorting.Select(chain, q);
  }

  lemma {:induction false} DeploymentsTracked(chain: seq<Log>, known: seq<Address>, from: nat, end: nat, roots: Roots,
                                              d: Log)
    requires Covers(known, chain, from, roots) && Deployment(d, roots)
    ensures d in WithSettlements(chain, WithLaunches(chain, KnownLogs(chain, known, from, end), end))
       <==> d in TrackedLogs(chain, from, end, roots)
  {
    var zero := KnownLogs(chain, known, from, end);
    var one := WithLaunches(chain, zero, end);
    assert d in one <==> d in zero;
  }

  /** A batch passes exactly when the tracked logs of its range do. */
  lemma {:induction false} SoundIff(chain: seq<Log>, known: seq<Address>, from: nat, end: nat, roots: Roots,
                                    genuine: Log -> bool)
    requires Knows(known, chain, from, roots) && Behaves(chain, roots)
    ensures Sound(chain, known, from, end, roots, genuine)
      <==> Fine(TrackedLogs(chain, from, end, roots), roots, genuine)
  {
    LaunchesTracked(chain, known, from, end, roots);
    PairsTracked(chain, known, from, end, roots);
    forall d | Deployment(d, roots)
      ensures d in WithSettlements(chain, WithLaunches(chain, KnownLogs(chain, known, from, end), end))
         <==> d in TrackedLogs(chain, from, end, roots)
    {
      DeploymentsTracked(chain, known, from, end, roots, d);
    }
  }

  /** Every refusal but the bound on graduations is one of these checks. */
  lemma {:induction false} HinderedUnsound(e: ScanError, chain: seq<Log>, known: seq<Address>, from: nat, end: nat,
                                           roots: Roots, genuine: Log -> bool)
    requires Hindered(e, chain, known, from, end, roots, genuine) && known != []
    ensures e.TooManyGraduations? || !Sound(chain, known, from, end, roots, genuine)
  {
    var one := WithLaunches(chain, KnownLogs(chain, known, from, end), end);
    var two := WithSettlements(chain, one);
    if e.InvalidGraduation? {
      var g :| g in one && Nameless(g);
      assert g in two && !Pairing.Identified(g);
    }
  }

  // ---------------------------------------------------------------- cuts

  lemma {:induction false} SliceJoin(a: seq<Log>, b: seq<Log>, n: nat)
    ensures Pairing.Slice(a + b, n) == Pairing.Slice(a, n) + Pairing.Slice(b, n)
    decreases |b|
  {
    if b == [] {
      assert a + b == a;
    } else {
      var init := b[..|b| - 1];
      assert (a + b)[..|a + b| - 1] == a + init;
      SliceJoin(a, init, n);
    }
  }

  lemma {:induction false} SliceNone(logs: seq<Log>, n: nat)
    requires forall l | l in logs :: l.block != n
    ensures Pairing.Slice(logs, n) == []
  {
    if Pairing.Slice(logs, n) != [] { Pairing.SliceMembers(logs, n, Pairing.Slice(logs, n)[0]); }
  }

  lemma {:induction false} PairsAt(a: seq<Log>, b: seq<Log>, mid: nat, roots: Roots, n: nat)
    requires (forall l | l in a :: l.block <= mid) && forall l | l in b :: l.block > mid
    ensures Pairing.ValidGraduationsAt(a + b, n, roots)
       <==> Pairing.ValidGraduationsAt(a, n, roots) && Pairing.ValidGraduationsAt(b, n, roots)
  {
    SliceJoin(a, b, n);
    if n <= mid {
      SliceNone(b, n);
      assert Pairing.Slice(a, n) + [] == Pairing.Slice(a, n);
    } else {
      SliceNone(a, n);
      assert [] + Pairing.Slice(b, n) == Pairing.Slice(b, n);
    }
  }

  ghost predicate PairedEverywhere(logs: seq<Log>, roots: Roots) {
    forall n: nat :: Pairing.ValidGraduationsAt(logs, n, roots)
  }

  /** Pairing is per block, so it does not see a cut between blocks. */
  lemma {:induction false} PairsJoin(a: seq<Log>, b: seq<Log>, mid: nat, roots: Roots)
    requires (forall l | l in a :: l.block <= mid) && forall l | l in b :: l.block > mid
    ensures PairedEverywhere(a + b, roots) <==> PairedEverywhere(a, roots) && PairedEverywhere(b, roots)
  {
    forall n: nat
      ensures Pairing.ValidGraduationsAt(a + b, n, roots)
         <==> Pairing.ValidGraduationsAt(a, n, roots) && Pairing.ValidGraduationsAt(b, n, roots)
    {
      PairsAt(a, b, mid, roots, n);
    }
  }

  lemma {:induction false} ValidEverywhere(logs: seq<Log>, roots: Roots)
    ensures Pairing.ValidGraduations(logs, roots) <==> PairedEverywhere(logs, roots)
  {
    Pairing.BatchIffSlices(logs, roots);
  }

  lemma {:induction false} LaunchesPart(logs: seq<Log>, part: seq<Log>)
    requires LaunchesBounded(logs) && forall l | l in part :: l in logs
    ensures LaunchesBounded(part)
  {
    SubsetSize(LaunchTokens(part), LaunchTokens(logs));
  }

  lemma {:induction false} SubsetSize(a: set<Address>, b: set<Address>)
    requires a <= b
    ensures |a| <= |b|
  {
    assert b == a + (b - a);
  }

  lemma {:induction false} FineJoin(chain: seq<Log>, from: nat, mid: nat, to: nat, roots: Roots, genuine: Log -> bool)
    requires ChainLogs(chain) && from <= mid + 1 && mid <= to && LaunchesBounded(TrackedLogs(chain, from, to, roots))
    ensures Fine(TrackedLogs(chain, from, to, roots), roots, genuine)
       <==> Fine(TrackedLogs(chain, from, mid, roots), roots, genuine)
            && Fine(TrackedLogs(chain, mid + 1, to, roots), roots, genuine)
  {
    var a, b := TrackedLogs(chain, from, mid, roots), TrackedLogs(chain, mid + 1, to, roots);
    TrackedJoin(chain, from, mid, to, roots);
    LaunchesPart(a + b, a);
    LaunchesPart(a + b, b);
    PairsJoin(a, b, mid, roots);
    ValidEverywhere(a, roots);
    ValidEverywhere(b, roots);
    ValidEverywhere(a + b, roots);
  }

  /** Every batch of this size from a height to a target is accepted. */
  ghost predicate AllFine(chain: seq<Log>, at: nat, target: nat, batchSize: nat, roots: Roots, genuine: Log -> bool)
    requires batchSize > 0
    decreases target - at
  {
    at >= target ||
    var end := if at + batchSize > target then target else at + batchSize;
    Fine(TrackedLogs(chain, at + 1, end, roots), roots, genuine)
    && AllFine(chain, end, target, batchSize, roots, genuine)
  }

  lemma {:induction false} AllFineStep(chain: seq<Log>, at: nat, target: nat, batchSize: nat, roots: Roots,
                                       genuine: Log -> bool)
    requires batchSize > 0 && at < target
    ensures var end := if at + batchSize > target then target else at + batchSize;
      AllFine(chain, at, target, batchSize, roots, genuine)
      <==> Fine(TrackedLogs(chain, at + 1, end, roots), roots, genuine)
           && AllFine(chain, end, target, batchSize, roots, genuine)
  {
  }

  lemma {:induction false} AllFineIff(chain: seq<Log>, at: nat, target: nat, batchSize: nat, roots: Roots,
                                      genuine: Log -> bool)
    requires ChainLogs(chain) && batchSize > 0 && at <= target
      && LaunchesBounded(TrackedLogs(chain, at + 1, target, roots))
    ensures AllFine(chain, at, target, batchSize, roots, genuine)
      <==> Fine(TrackedLogs(chain, at + 1, target, roots), roots, genuine)
    decreases target - at
  {
    if at == target {
      EmptyRange(chain, at, roots);
      Nothing(roots, genuine);
    } else {
      var end := if at + batchSize > target then target else at + batchSize;
      FineJoin(chain, at + 1, end, target, roots, genuine);
      LaunchesPart(TrackedLogs(chain, at + 1, target, roots), TrackedLogs(chain, end + 1, target, roots));
      AllFineIff(chain, end, target, batchSize, roots, genuine);
    }
  }

  lemma {:induction false} Nothing(roots: Roots, genuine: Log -> bool)
    ensures Fine([], roots, genuine)
  {
    assert LaunchTokens([]) == {};
  }

  /** Any two batch sizes are accepted alike. */
  lemma {:induction false} BatchSizesAlike(chain: seq<Log>, at: nat, target: nat, one: nat, other: nat, roots: Roots,
                                           genuine: Log -> bool)
    requires ChainLogs(chain) && one > 0 && other > 0 && at <= target
      && LaunchesBounded(TrackedLogs(chain, at + 1, target, roots))
    ensures AllFine(chain, at, target, one, roots, genuine) <==> AllFine(chain, at, target, other, roots, genuine)
  {
    AllFineIff(chain, at, target, one, roots, genuine);
    AllFineIff(chain, at, target, other, roots, genuine);
  }
}
