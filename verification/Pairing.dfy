/** Graduations against settlements, CTO activations against fee routes: both validators accept a
    list of logs exactly when every opening event has one partner and no partner is left over. */
module Pairing {
  import opened Wrappers
  import opened Chain

  /** The fields two partner events must share. */
  datatype PairKey =
    | GraduationKey(manager: Address, token: Address, tx: Hash, block: nat, blockHash: Hash)
    | ActivationKey(token: Address, treasury: Address, previous: Address, tx: Hash, block: nat, blockHash: Hash)

  datatype Part = Graduation | Settlement | Activation | FeeRoute

  /** The pair key a log contributes to one of the four lists. */
  function KeyOf(l: Log, part: Part, roots: Roots): Option<PairKey> {
    match part
    case Graduation =>
      if l.payload.Graduated?
      then Some(GraduationKey(l.payload.manager, l.payload.token, l.tx, l.block, l.blockHash)) else None
    case Settlement =>
      if l.payload.Settled?
      then Some(GraduationKey(l.address, l.payload.token, l.tx, l.block, l.blockHash)) else None
    case Activation =>
      if l.address == roots.registry && l.payload.Cto? && l.payload.event.Activated?
      then Some(ActivationKey(l.payload.event.token, l.payload.event.treasury, l.payload.event.previous,
                              l.tx, l.block, l.blockHash)) else None
    case FeeRoute =>
      if l.address == roots.feeManager && l.payload.Cto? && l.payload.event.RouteActivated?
      then Some(ActivationKey(l.payload.event.token, l.payload.event.treasury, l.payload.event.previous,
                              l.tx, l.block, l.blockHash)) else None
  }

  function Keys(logs: seq<Log>, part: Part, roots: Roots): seq<PairKey>
    decreases |logs|
  {
    if logs == [] then []
    else
      Keys(logs[..|logs| - 1], part, roots) + AsKeys(KeyOf(logs[|logs| - 1], part, roots))
  }

  function AsKeys(k: Option<PairKey>): seq<PairKey> {
    match k
    case None => []
    case Some(key) => [key]
  }

  /** Zero identities are refused before any matching. */
  predicate Identified(l: Log) {
    (l.payload.Graduated? ==> l.payload.token != ZERO_ADDRESS && l.payload.manager != ZERO_ADDRESS)
    && (l.payload.Settled? ==> l.payload.token != ZERO_ADDRESS)
  }

  predicate Paired(openers: seq<PairKey>, partners: seq<PairKey>) {
    EachOnce(openers, partners) && (forall k | k in partners :: k in openers)
  }

  predicate EachOnce(openers: seq<PairKey>, partners: seq<PairKey>) {
    forall i | 0 <= i < |openers| :: multiset(partners)[openers[i]] == 1
  }

  predicate ValidGraduations(logs: seq<Log>, roots: Roots) {
    (forall l | l in logs :: Identified(l)) && Paired(Keys(logs, Graduation, roots), Keys(logs, Settlement, roots))
  }

  predicate ValidActivations(logs: seq<Log>, roots: Roots) {
    roots.Configured() ==> Paired(Keys(logs, Activation, roots), Keys(logs, FeeRoute, roots))
  }

  /** One opener's pass over the partners: count the matches and mark them. */
  method MarkMatches(matched: array<bool>, opener: PairKey, partners: seq<PairKey>) returns (matches: nat)
    requires matched.Length == |partners|
    modifies matched
    ensures matches == multiset(partners)[opener]
    ensures forall i | 0 <= i < |partners| :: matched[i] <==> old(matched[i]) || partners[i] == opener
  {
    matches := 0;
    for i := 0 to |partners|
      invariant matches == multiset(partners[..i])[opener]
      invariant forall j | 0 <= j < |partners| ::
        matched[j] <==> old(matched[j]) || (j < i && partners[j] == opener)
    {
      assert partners[..i + 1] == partners[..i] + [partners[i]];
      if opener == partners[i] {
        matches := matches + 1;
        matched[i] := true;
      }
    }
    assert partners[..|partners|] == partners;
  }

  /** The matching loops shared by both validators, with their array of matched partners. */
  method MatchAll(openers: seq<PairKey>, partners: seq<PairKey>) returns (ok: bool)
    ensures ok <==> Paired(openers, partners)
  {
    var matched := new bool[|partners|](_ => false);
    for c := 0 to |openers|
      invariant forall i | 0 <= i < |partners| :: matched[i] <==> partners[i] in openers[..c]
      invariant EachOnce(openers[..c], partners)
    {
      var matches := MarkMatches(matched, openers[c], partners);
      if matches != 1 { return false; }
      assert openers[..c + 1] == openers[..c] + [openers[c]];
    }
    assert openers[..|openers|] == openers;
    for i := 0 to |partners|
      invariant forall j | 0 <= j < i :: partners[j] in openers
    {
      assert partners[i] in partners;
      if !matched[i] { return false; }
    }
    return true;
  }

  method ValidateGraduationPairs(logs: seq<Log>, roots: Roots) returns (ok: bool)
    ensures ok <==> ValidGraduations(logs, roots)
  {
    var curves, settlements := [], [];
    for i := 0 to |logs|
      invariant forall l | l in logs[..i] :: Identified(l)
      invariant curves == Keys(logs[..i], Graduation, roots) && settlements == Keys(logs[..i], Settlement, roots)
    {
      var l := logs[i];
      assert l in logs;
      if !Identified(l) { return false; }
      assert logs[..i + 1][..i] == logs[..i];
      assert logs[..i + 1] == logs[..i] + [l];
      match l.payload {
        case Graduated(token, manager, _, _, _) =>
          curves := curves + [GraduationKey(manager, token, l.tx, l.block, l.blockHash)];
        case Settled(token, _, _, _) =>
          settlements := settlements + [GraduationKey(l.address, token, l.tx, l.block, l.blockHash)];
        case _ =>
      }
    }
    assert logs[..|logs|] == logs;
    ok := MatchAll(curves, settlements);
  }

  method ValidateCtoActivationPairs(logs: seq<Log>, roots: Roots) returns (ok: bool)
    ensures ok <==> ValidActivations(logs, roots)
  {
    if !roots.Configured() { return true; }
    var activations, routes := [], [];
    for i := 0 to |logs|
      invariant activations == Keys(logs[..i], Activation, roots) && routes == Keys(logs[..i], FeeRoute, roots)
    {
      var l := logs[i];
      assert logs[..i + 1][..i] == logs[..i];
      if l.payload.Cto? {
        var e := l.payload.event;
        if l.address == roots.registry && e.Activated? {
          activations := activations + [ActivationKey(e.token, e.treasury, e.previous, l.tx, l.block, l.blockHash)];
        }
        if l.address == roots.feeManager && e.RouteActivated? {
          routes := routes + [ActivationKey(e.token, e.treasury, e.previous, l.tx, l.block, l.blockHash)];
        }
      }
    }
    assert logs[..|logs|] == logs;
    ok := MatchAll(activations, routes);
  }

  // ---------------------------------------------------------------- what acceptance means

  ghost predicate Distinct(s: seq<PairKey>) {
    forall i, j | 0 <= i < j < |s| :: s[i] != s[j]
  }

  ghost predicate OnlyAt(s: seq<PairKey>, j: int, k: PairKey) {
    0 <= j < |s| && s[j] == k && forall m | 0 <= m < |s| && s[m] == k :: m == j
  }

  ghost predicate ExactlyOne(s: seq<PairKey>, k: PairKey) {
    exists j :: OnlyAt(s, j, k)
  }

  ghost predicate OneToOne(a: seq<PairKey>, b: seq<PairKey>) {
    forall i | 0 <= i < |a| :: ExactlyOne(b, a[i])
  }

  lemma {:induction false} CountOne(s: seq<PairKey>, k: PairKey)
    ensures multiset(s)[k] == 1 <==> ExactlyOne(s, k)
    ensures multiset(s)[k] == 0 <==> k !in s
  {
    if s != [] {
      var n := |s| - 1;
      var init := s[..n];
      assert s == init + [s[n]];
      assert forall m | 0 <= m < n :: s[m] == init[m];
      CountOne(init, k);
      if s[n] == k {
        if multiset(s)[k] == 1 { assert OnlyAt(s, n, k); }
        if j :| OnlyAt(s, j, k) { assert k !in init; }
      } else {
        if j :| OnlyAt(s, j, k) { assert OnlyAt(init, j, k); }
        if j :| OnlyAt(init, j, k) { assert OnlyAt(s, j, k); }
      }
    }
  }

  lemma {:induction false} EachOnceIffOneToOne(openers: seq<PairKey>, partners: seq<PairKey>)
    ensures EachOnce(openers, partners) <==> OneToOne(openers, partners)
  {
    forall i | 0 <= i < |openers|
      ensures multiset(partners)[openers[i]] == 1 <==> ExactlyOne(partners, openers[i])
    {
      CountOne(partners, openers[i]);
    }
  }

  /** Acceptance is a bijection between openers and partners exactly when no two openers share a
      key; otherwise it only makes the matching total and surjective. */
  lemma {:induction false} BijectionIff(openers: seq<PairKey>, partners: seq<PairKey>)
    ensures (OneToOne(openers, partners) && OneToOne(partners, openers))
       <==> (Paired(openers, partners) && Distinct(openers))
    ensures Paired(openers, partners) <==>
      OneToOne(openers, partners) && forall k | k in partners :: k in openers
  {
    EachOnceIffOneToOne(openers, partners);
    if Paired(openers, partners) && Distinct(openers) {
      forall i | 0 <= i < |partners| ensures ExactlyOne(openers, partners[i]) {
        assert partners[i] in openers;
        var j :| 0 <= j < |openers| && openers[j] == partners[i];
        assert OnlyAt(openers, j, partners[i]);
      }
      assert OneToOne(partners, openers);
    }
    if OneToOne(openers, partners) && OneToOne(partners, openers) {
      forall k | k in partners ensures k in openers {
        var i :| 0 <= i < |partners| && partners[i] == k;
        var j :| OnlyAt(openers, j, partners[i]);
      }
      forall i, j | 0 <= i < j < |openers| ensures openers[i] != openers[j] {
        var m :| OnlyAt(partners, m, openers[i]);
        var h :| OnlyAt(openers, h, partners[m]);
      }
    }
  }

  /** Without distinct openers acceptance is not injective: two equal graduations share one settlement. */
  lemma {:induction false} NotInjective()
    ensures var k := GraduationKey(1, 2, 3, 4, 5);
      Paired([k, k], [k]) && !OneToOne([k], [k, k])
  {
    var k := GraduationKey(1, 2, 3, 4, 5);
    var twice := [k, k];
    assert twice[0] == k && twice[1] == k;
    assert [k][0] == k && forall j :: !OnlyAt(twice, j, k);
  }

  // ---------------------------------------------------------------- batches and block slices

  function Slice(logs: seq<Log>, n: nat): seq<Log>
    decreases |logs|
  {
    if logs == [] then []
    else
      var init := Slice(logs[..|logs| - 1], n);
      if logs[|logs| - 1].block == n then init + [logs[|logs| - 1]] else init
  }

  lemma {:induction false} SliceMembers(logs: seq<Log>, n: nat, l: Log)
    ensures l in Slice(logs, n) <==> l in logs && l.block == n
    decreases |logs|
  {
    if logs != [] {
      SliceMembers(logs[..|logs| - 1], n, l);
      assert logs == logs[..|logs| - 1] + [logs[|logs| - 1]];
    }
  }

  lemma {:induction false} KeysStep(logs: seq<Log>, l: Log, part: Part, roots: Roots)
    ensures Keys(logs + [l], part, roots) == Keys(logs, part, roots) + AsKeys(KeyOf(l, part, roots))
  {
    assert (logs + [l])[..|logs|] == logs;
  }

  lemma {:induction false} SliceCounts(logs: seq<Log>, part: Part, roots: Roots, n: nat, k: PairKey)
    ensures multiset(Keys(Slice(logs, n), part, roots))[k]
         == if k.block == n then multiset(Keys(logs, part, roots))[k] else 0
    decreases |logs|
  {
    if logs != [] {
      var init, last := logs[..|logs| - 1], logs[|logs| - 1];
      SliceCounts(init, part, roots, n, k);
      var key := KeyOf(last, part, roots);
      KeyBlock(last, part, roots);
      assert Keys(logs, part, roots) == Keys(init, part, roots) + AsKeys(key);
      if last.block == n {
        KeysStep(Slice(init, n), last, part, roots);
      }
    }
  }

  lemma {:induction false} KeyBlock(l: Log, part: Part, roots: Roots)
    ensures KeyOf(l, part, roots).Some? ==> KeyOf(l, part, roots).value.block == l.block
  {
  }

  lemma {:induction false} SliceKeys(logs: seq<Log>, part: Part, roots: Roots, n: nat, k: PairKey)
    ensures k in Keys(Slice(logs, n), part, roots) <==> k in Keys(logs, part, roots) && k.block == n
  {
    SliceCounts(logs, part, roots, n, k);
    assert k in Keys(Slice(logs, n), part, roots) <==> k in multiset(Keys(Slice(logs, n), part, roots));
    assert k in Keys(logs, part, roots) <==> k in multiset(Keys(logs, part, roots));
  }

  predicate PairedIn(logs: seq<Log>, opener: Part, partner: Part, roots: Roots) {
    Paired(Keys(logs, opener, roots), Keys(logs, partner, roots))
  }

  predicate PairedAt(logs: seq<Log>, n: nat, opener: Part, partner: Part, roots: Roots) {
    PairedIn(Slice(logs, n), opener, partner, roots)
  }

  lemma {:induction false} PairedSlice(logs: seq<Log>, n: nat, opener: Part, partner: Part, roots: Roots)
    requires PairedIn(logs, opener, partner, roots)
    ensures PairedAt(logs, n, opener, partner, roots)
  {
    var os, ps := Keys(Slice(logs, n), opener, roots), Keys(Slice(logs, n), partner, roots);
    forall i | 0 <= i < |os| ensures multiset(ps)[os[i]] == 1 {
      SliceKeys(logs, opener, roots, n, os[i]);
      SliceCounts(logs, partner, roots, n, os[i]);
    }
    forall k | k in ps ensures k in os {
      SliceKeys(logs, partner, roots, n, k);
      SliceKeys(logs, opener, roots, n, k);
    }
  }

  lemma {:induction false} PairedFromSlices(logs: seq<Log>, opener: Part, partner: Part, roots: Roots)
    requires forall n: nat :: PairedAt(logs, n, opener, partner, roots)
    ensures PairedIn(logs, opener, partner, roots)
  {
    var os, ps := Keys(logs, opener, roots), Keys(logs, partner, roots);
    forall i | 0 <= i < |os| ensures multiset(ps)[os[i]] == 1 {
      var k := os[i];
      SliceKeys(logs, opener, roots, k.block, k);
      SliceCounts(logs, partner, roots, k.block, k);
      assert PairedAt(logs, k.block, opener, partner, roots);
    }
    forall k | k in ps ensures k in os {
      SliceKeys(logs, partner, roots, k.block, k);
      SliceKeys(logs, opener, roots, k.block, k);
      assert PairedAt(logs, k.block, opener, partner, roots);
    }
  }

  predicate ValidGraduationsAt(logs: seq<Log>, n: nat, roots: Roots) {
    ValidGraduations(Slice(logs, n), roots)
  }

  predicate ValidActivationsAt(logs: seq<Log>, n: nat, roots: Roots) {
    ValidActivations(Slice(logs, n), roots)
  }

  /** Accepting a batch is accepting every block's slice, which is what Apply validates again. */
  lemma {:induction false} BatchIffSlices(logs: seq<Log>, roots: Roots)
    ensures ValidGraduations(logs, roots) <==> forall n: nat :: ValidGraduationsAt(logs, n, roots)
    ensures ValidActivations(logs, roots) <==> forall n: nat :: ValidActivationsAt(logs, n, roots)
  {
    if ValidGraduations(logs, roots) {
      forall n: nat ensures ValidGraduationsAt(logs, n, roots) {
        forall l | l in Slice(logs, n) ensures Identified(l) { SliceMembers(logs, n, l); }
        PairedSlice(logs, n, Graduation, Settlement, roots);
      }
    }
    if forall n: nat :: ValidGraduationsAt(logs, n, roots) {
      forall l | l in logs ensures Identified(l) {
        SliceMembers(logs, l.block, l);
        assert ValidGraduationsAt(logs, l.block, roots);
      }
      forall n: nat ensures PairedAt(logs, n, Graduation, Settlement, roots) {
        assert ValidGraduationsAt(logs, n, roots);
      }
      PairedFromSlices(logs, Graduation, Settlement, roots);
    }
    if ValidActivations(logs, roots) && roots.Configured() {
      forall n: nat ensures ValidActivationsAt(logs, n, roots) {
        PairedSlice(logs, n, Activation, FeeRoute, roots);
      }
    }
    if roots.Configured() && forall n: nat :: ValidActivationsAt(logs, n, roots) {
      forall n: nat ensures PairedAt(logs, n, Activation, FeeRoute, roots) {
        assert ValidActivationsAt(logs, n, roots);
      }
      PairedFromSlices(logs, Activation, FeeRoute, roots);
    }
  }

  // ---------------------------------------------------------------- in the logs' own fields

  /** The settlement of this graduation: at its manager, of its token, in its transaction and block. */
  predicate SettlementOf(g: Log, s: Log) {
    g.payload.Graduated? && s.payload.Settled? && s.address == g.payload.manager && s.payload.token == g.payload.token
    && s.tx == g.tx && s.block == g.block && s.blockHash == g.blockHash
  }

  /** The fee route of this activation. */
  predicate RouteOf(a: Log, r: Log, roots: Roots) {
    a.address == roots.registry && a.payload.Cto? && a.payload.event.Activated?
    && r.address == roots.feeManager && r.payload.Cto? && r.payload.event.RouteActivated?
    && r.payload.event.token == a.payload.event.token && r.payload.event.treasury == a.payload.event.treasury
    && r.payload.event.previous == a.payload.event.previous
    && r.tx == a.tx && r.block == a.block && r.blockHash == a.blockHash
  }

  ghost predicate KeyAt(logs: seq<Log>, part: Part, roots: Roots, j: nat, k: PairKey) {
    j < |logs| && KeyOf(logs[j], part, roots) == Some(k)
  }

  ghost predicate OnlyKeyAt(logs: seq<Log>, part: Part, roots: Roots, j: nat, k: PairKey) {
    KeyAt(logs, part, roots, j, k) && forall m: nat | KeyAt(logs, part, roots, m, k) :: m == j
  }

  ghost predicate OneKey(logs: seq<Log>, part: Part, roots: Roots, k: PairKey) {
    exists j: nat :: OnlyKeyAt(logs, part, roots, j, k)
  }

  ghost predicate NoKey(logs: seq<Log>, part: Part, roots: Roots, k: PairKey) {
    forall j: nat :: !KeyAt(logs, part, roots, j, k)
  }

  /** A key is counted once when one log has it. */
  lemma {:induction false} CountKeys(logs: seq<Log>, part: Part, roots: Roots, k: PairKey)
    ensures multiset(Keys(logs, part, roots))[k] == 0 <==> NoKey(logs, part, roots, k)
    ensures multiset(Keys(logs, part, roots))[k] == 1 <==> OneKey(logs, part, roots, k)
    decreases |logs|
  {
    if logs != [] {
      var n := |logs| - 1;
      var init := logs[..n];
      CountKeys(init, part, roots, k);
      forall j: nat | j < n ensures KeyAt(logs, part, roots, j, k) <==> KeyAt(init, part, roots, j, k) {}
      assert Keys(logs, part, roots) == Keys(init, part, roots) + AsKeys(KeyOf(logs[n], part, roots));
      if KeyAt(logs, part, roots, n, k) {
        KeyLast(logs, part, roots, k);
      } else {
        KeyEarlier(logs, part, roots, k);
      }
    }
  }

  lemma {:induction false} KeyLast(logs: seq<Log>, part: Part, roots: Roots, k: PairKey)
    requires logs != [] && KeyAt(logs, part, roots, |logs| - 1, k)
    ensures !NoKey(logs, part, roots, k)
    ensures OneKey(logs, part, roots, k) <==> NoKey(logs[..|logs| - 1], part, roots, k)
  {
    var n := |logs| - 1;
    var init := logs[..n];
    forall j: nat | j < n ensures KeyAt(logs, part, roots, j, k) <==> KeyAt(init, part, roots, j, k) {}
    if NoKey(init, part, roots, k) { assert OnlyKeyAt(logs, part, roots, n, k); }
    if j: nat :| OnlyKeyAt(logs, part, roots, j, k) { assert j == n; }
  }

  lemma {:induction false} KeyEarlier(logs: seq<Log>, part: Part, roots: Roots, k: PairKey)
    requires logs != [] && !KeyAt(logs, part, roots, |logs| - 1, k)
    ensures NoKey(logs, part, roots, k) <==> NoKey(logs[..|logs| - 1], part, roots, k)
    ensures OneKey(logs, part, roots, k) <==> OneKey(logs[..|logs| - 1], part, roots, k)
  {
    var n := |logs| - 1;
    var init := logs[..n];
    forall j: nat ensures KeyAt(logs, part, roots, j, k) <==> KeyAt(init, part, roots, j, k) {}
    if j: nat :| OnlyKeyAt(logs, part, roots, j, k) { assert OnlyKeyAt(init, part, roots, j, k); }
    if j: nat :| OnlyKeyAt(init, part, roots, j, k) { assert OnlyKeyAt(logs, part, roots, j, k); }
  }

  type Partners = (Log, Log) -> bool

  /** Every opener has exactly one partner, and every possible partner some opener. */
  ghost predicate Matched(logs: seq<Log>, opens: Log -> bool, closes: Log -> bool, partners: Partners) {
    (forall i | 0 <= i < |logs| && opens(logs[i]) :: OnePartner(logs, logs[i], partners))
    && forall j | 0 <= j < |logs| && closes(logs[j]) :: SomeOpener(logs, logs[j], partners)
  }

  ghost predicate OnePartner(logs: seq<Log>, opener: Log, partners: Partners) {
    exists j: nat :: PartnerAt(logs, opener, j, partners)
      && forall m: nat | PartnerAt(logs, opener, m, partners) :: m == j
  }

  ghost predicate PartnerAt(logs: seq<Log>, opener: Log, j: nat, partners: Partners) {
    j < |logs| && partners(opener, logs[j])
  }

  ghost predicate SomeOpener(logs: seq<Log>, closer: Log, partners: Partners) {
    exists i | 0 <= i < |logs| :: partners(logs[i], closer)
  }

  /** The fields compared are those of the pair keys. */
  ghost predicate Compares(opens: Log -> bool, closes: Log -> bool, partners: Partners, opener: Part, closer: Part,
                           roots: Roots) {
    (forall l :: opens(l) <==> KeyOf(l, opener, roots).Some?)
    && (forall l :: closes(l) <==> KeyOf(l, closer, roots).Some?)
    && forall a, b :: partners(a, b) <==>
      opens(a) && closes(b) && KeyOf(a, opener, roots).value == KeyOf(b, closer, roots).value
  }

  lemma {:induction false} PartnerMeans(logs: seq<Log>, l: Log, opens: Log -> bool, closes: Log -> bool,
                                        partners: Partners, opener: Part, closer: Part, roots: Roots)
    requires Compares(opens, closes, partners, opener, closer, roots)
    ensures opens(l) ==>
      (OnePartner(logs, l, partners) <==> OneKey(logs, closer, roots, KeyOf(l, opener, roots).value))
    ensures closes(l) ==>
      (SomeOpener(logs, l, partners) <==> !NoKey(logs, opener, roots, KeyOf(l, closer, roots).value))
  {
    if opens(l) {
      var k := KeyOf(l, opener, roots).value;
      forall j: nat ensures PartnerAt(logs, l, j, partners) <==> KeyAt(logs, closer, roots, j, k) {}
      if j: nat :| PartnerAt(logs, l, j, partners) && forall m: nat | PartnerAt(logs, l, m, partners) :: m == j {
        assert OnlyKeyAt(logs, closer, roots, j, k);
      }
      if j: nat :| OnlyKeyAt(logs, closer, roots, j, k) {
        assert PartnerAt(logs, l, j, partners);
      }
    }
    if closes(l) {
      var k := KeyOf(l, closer, roots).value;
      if i :| 0 <= i < |logs| && partners(logs[i], l) { assert KeyAt(logs, opener, roots, i, k); }
      if i: nat :| KeyAt(logs, opener, roots, i, k) { assert partners(logs[i], l); }
    }
  }

  lemma {:induction false} KeyListed(logs: seq<Log>, part: Part, roots: Roots, k: PairKey)
    ensures k in Keys(logs, part, roots) <==> !NoKey(logs, part, roots, k)
  {
    CountKeys(logs, part, roots, k);
    assert k in Keys(logs, part, roots) <==> k in multiset(Keys(logs, part, roots));
  }

  lemma {:induction false} PairedMeans(logs: seq<Log>, opens: Log -> bool, closes: Log -> bool, partners: Partners,
                                       opener: Part, closer: Part, roots: Roots)
    requires Compares(opens, closes, partners, opener, closer, roots)
    ensures PairedIn(logs, opener, closer, roots) <==> Matched(logs, opens, closes, partners)
  {
    var os, cs := Keys(logs, opener, roots), Keys(logs, closer, roots);
    if PairedIn(logs, opener, closer, roots) {
      forall i | 0 <= i < |logs| && opens(logs[i]) ensures OnePartner(logs, logs[i], partners) {
        var k := KeyOf(logs[i], opener, roots).value;
        PartnerMeans(logs, logs[i], opens, closes, partners, opener, closer, roots);
        assert KeyAt(logs, opener, roots, i, k);
        KeyListed(logs, opener, roots, k);
        CountKeys(logs, closer, roots, k);
      }
      forall j | 0 <= j < |logs| && closes(logs[j]) ensures SomeOpener(logs, logs[j], partners) {
        var k := KeyOf(logs[j], closer, roots).value;
        PartnerMeans(logs, logs[j], opens, closes, partners, opener, closer, roots);
        assert KeyAt(logs, closer, roots, j, k);
        KeyListed(logs, closer, roots, k);
        KeyListed(logs, opener, roots, k);
      }
    }
    if Matched(logs, opens, closes, partners) {
      forall i | 0 <= i < |os| ensures multiset(cs)[os[i]] == 1 {
        KeyListed(logs, opener, roots, os[i]);
        var j: nat :| KeyAt(logs, opener, roots, j, os[i]);
        PartnerMeans(logs, logs[j], opens, closes, partners, opener, closer, roots);
        CountKeys(logs, closer, roots, os[i]);
      }
      forall k | k in cs ensures k in os {
        KeyListed(logs, closer, roots, k);
        var j: nat :| KeyAt(logs, closer, roots, j, k);
        PartnerMeans(logs, logs[j], opens, closes, partners, opener, closer, roots);
        KeyListed(logs, opener, roots, k);
      }
    }
  }

  /** A list passes when its graduations name token and manager, its settlements name the token, every graduation
      has exactly one settlement and no settlement stands alone. */
  lemma {:induction false} GraduationsMean(logs: seq<Log>, roots: Roots)
    ensures ValidGraduations(logs, roots) <==>
      (forall l | l in logs ::
         (l.payload.Graduated? ==> l.payload.token != 0 && l.payload.manager != 0)
         && (l.payload.Settled? ==> l.payload.token != 0))
      && Matched(logs, (l: Log) => l.payload.Graduated?, (l: Log) => l.payload.Settled?,
                 (g: Log, s: Log) => SettlementOf(g, s))
  {
    PairedMeans(logs, (l: Log) => l.payload.Graduated?, (l: Log) => l.payload.Settled?,
                (g: Log, s: Log) => SettlementOf(g, s), Graduation, Settlement, roots);
  }

  /** With both roots configured, a list passes when every activation of the registry has exactly one fee route of
      the fee manager and no fee route stands alone. */
  lemma {:induction false} ActivationsMean(logs: seq<Log>, roots: Roots)
    requires roots.registry != 0 && roots.feeManager != 0
    ensures ValidActivations(logs, roots) <==>
      Matched(logs, (l: Log) => l.address == roots.registry && l.payload.Cto? && l.payload.event.Activated?,
              (l: Log) => l.address == roots.feeManager && l.payload.Cto? && l.payload.event.RouteActivated?,
              (a: Log, r: Log) => RouteOf(a, r, roots))
  {
    PairedMeans(logs, (l: Log) => l.address == roots.registry && l.payload.Cto? && l.payload.event.Activated?,
                (l: Log) => l.address == roots.feeManager && l.payload.Cto? && l.payload.event.RouteActivated?,
                (a: Log, r: Log) => RouteOf(a, r, roots), Activation, FeeRoute, roots);
  }
}
