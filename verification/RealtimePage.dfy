/** The token page's live buffer and the three independently polled surfaces that share it. A trade
    may be forgotten only once every surface's snapshot covers its block; then forgetting is
    invisible, and every live trade is shown exactly once. */
module RealtimePage {
  import opened Wrappers
  import opened Chain
  import opened Overlay
  import Sorting

  const DEDUPE_CAPACITY: nat := 256

  // ---------------------------------------------------------------- surface watermarks

  datatype Surface = TokenSurface | ChartSurface | TradesSurface

  /** A watermark reading: missing, malformed, or a block number. */
  datatype Mark = Absent | Invalid | At(block: nat)

  datatype Marks = Marks(token: Mark, chart: Mark, trades: Mark)
  {
    function Of(s: Surface): Mark {
      match s case TokenSurface => token case ChartSurface => chart case TradesSurface => trades
    }

    function With(s: Surface, m: Mark): Marks {
      match s
      case TokenSurface => this.(token := m)
      case ChartSurface => this.(chart := m)
      case TradesSurface => this.(trades := m)
    }
  }

  function Min(a: nat, b: nat): nat { if a < b then a else b }

  /** safeRealtimeRetirementFloor. */
  function SafeFloor(m: Marks): Option<nat> {
    if !m.token.At? || !m.chart.At? || !m.trades.At? then None
    else Some(Min(m.token.block, Min(m.chart.block, m.trades.block)))
  }

  /** advanceRealtimeSurfaceWatermark. */
  function Advance(m: Marks, s: Surface, reading: Mark): Marks {
    match reading
    case Absent => if s.ChartSurface? && m.chart != Absent then m.(chart := Absent) else m
    case Invalid => m
    case At(block) => if m.Of(s) == Absent || !m.Of(s).At? || block > m.Of(s).block then m.With(s, reading) else m
  }

  /** There is a floor exactly when all surfaces have reported, and it is the highest block that all
      of them have committed through. */
  lemma {:induction false} FloorIsSafe(m: Marks, f: nat)
    ensures SafeFloor(m).Some? <==> forall s: Surface :: m.Of(s).At?
    ensures SafeFloor(m).Some? ==> (f <= SafeFloor(m).value <==> forall s: Surface :: f <= m.Of(s).block)
  {
    assert m.Of(TokenSurface) == m.token && m.Of(ChartSurface) == m.chart && m.Of(TradesSurface) == m.trades;
  }

  /** Readings only raise a surface's own mark; a missing chart reading starts a new generation. */
  lemma {:induction false} AdvanceRaises(m: Marks, s: Surface, reading: Mark)
    ensures forall t: Surface | t != s :: Advance(m, s, reading).Of(t) == m.Of(t)
    ensures m.Of(s).At? && !(s.ChartSurface? && reading.Absent?) ==>
      Advance(m, s, reading).Of(s).At? && Advance(m, s, reading).Of(s).block >= m.Of(s).block
    ensures reading.At? ==> Advance(m, s, reading).Of(s).At? && Advance(m, s, reading).Of(s).block >= reading.block
  {
  }

  /** The page's marks and retired floor, and the newest block each surface has ever shown. */
  datatype Page = Page(marks: Marks, retired: Option<nat>, newest: Marks)

  const BLANK_PAGE := Page(Marks(Absent, Absent, Absent), None, Marks(Absent, Absent, Absent))

  datatype Report = Report(surface: Surface, reading: Mark)

  function Raised(m: Marks, s: Surface, reading: Mark): Marks {
    if reading.At? && (!m.Of(s).At? || m.Of(s).block < reading.block) then m.With(s, reading) else m
  }

  /** A surface reports its snapshot; the hook's effect then retires through the new floor. */
  function Observed(p: Page, r: Report): Page {
    var marks := Advance(p.marks, r.surface, r.reading);
    Page(marks,
         match SafeFloor(marks)
         case None => p.retired
         case Some(f) => Some(if p.retired.Some? && p.retired.value > f then p.retired.value else f),
         Raised(p.newest, r.surface, r.reading))
  }

  function ObservedAll(p: Page, rs: seq<Report>): Page
    decreases |rs|
  {
    if rs == [] then p else Observed(ObservedAll(p, rs[..|rs| - 1]), rs[|rs| - 1])
  }

  /** Nothing is retired that some surface has never had in a snapshot: a surface can only fall
      below the retired floor by showing an older snapshot than it has shown before. */
  ghost predicate Covered(p: Page) {
    forall s: Surface :: MarkCovered(p.marks, p.newest, s)
      && (p.retired.Some? ==> p.newest.Of(s).At? && p.retired.value <= p.newest.Of(s).block)
  }

  ghost predicate MarkCovered(marks: Marks, newest: Marks, s: Surface) {
    marks.Of(s).At? ==> newest.Of(s).At? && marks.Of(s).block <= newest.Of(s).block
  }

  lemma {:induction false} MarkStep(marks: Marks, newest: Marks, r: Report, s: Surface)
    requires MarkCovered(marks, newest, s)
    ensures MarkCovered(Advance(marks, r.surface, r.reading), Raised(newest, r.surface, r.reading), s)
    ensures newest.Of(s).At? ==>
      Raised(newest, r.surface, r.reading).Of(s).At?
      && newest.Of(s).block <= Raised(newest, r.surface, r.reading).Of(s).block
  {
    match r.surface {
      case TokenSurface =>
      case ChartSurface =>
      case TradesSurface =>
    }
  }

  lemma {:induction false} ObservedCovered(p: Page, r: Report)
    requires Covered(p)
    ensures Covered(Observed(p, r))
  {
    var q := Observed(p, r);
    forall s: Surface
      ensures MarkCovered(q.marks, q.newest, s)
      ensures q.retired.Some? ==> q.newest.Of(s).At? && q.retired.value <= q.newest.Of(s).block
    {
      MarkStep(p.marks, p.newest, r, s);
      if SafeFloor(q.marks).Some? { FloorIsSafe(q.marks, SafeFloor(q.marks).value); }
    }
  }

  lemma {:induction false} RetiredIsCovered(rs: seq<Report>)
    ensures Covered(ObservedAll(BLANK_PAGE, rs))
    decreases |rs|
  {
    if rs != [] {
      RetiredIsCovered(rs[..|rs| - 1]);
      ObservedCovered(ObservedAll(BLANK_PAGE, rs[..|rs| - 1]), rs[|rs| - 1]);
    }
  }

  /** This report still counts for the surface's mark: a missing chart reading starts the chart anew. */
  ghost predicate Counts(rs: seq<Report>, i: nat, s: Surface) {
    i < |rs| && rs[i].surface == s && rs[i].reading.At?
    && (s.ChartSurface? ==> forall j | i < j < |rs| && rs[j].surface == s :: !rs[j].reading.Absent?)
  }

  /** The mark is the highest block of the reports that count. */
  ghost predicate Highest(mark: Mark, rs: seq<Report>, s: Surface) {
    (mark.At? <==> exists i: nat :: Counts(rs, i, s))
    && (mark.At? ==> exists i: nat :: Counts(rs, i, s) && rs[i].reading.block == mark.block)
    && (mark.At? ==> forall i: nat | Counts(rs, i, s) :: rs[i].reading.block <= mark.block)
  }

  lemma {:induction false} CountsStep(rs: seq<Report>, r: Report, s: Surface, i: nat)
    ensures i < |rs| ==>
      (Counts(rs + [r], i, s) <==> Counts(rs, i, s) && !(s.ChartSurface? && r == Report(ChartSurface, Absent)))
    ensures i == |rs| ==> (Counts(rs + [r], i, s) <==> r.surface == s && r.reading.At?)
  {
    if i < |rs| {
      assert (rs + [r])[i] == rs[i] && (rs + [r])[|rs|] == r;
      if Counts(rs + [r], i, s) {
        forall j | i < j < |rs| && rs[j].surface == s ensures s.ChartSurface? ==> !rs[j].reading.Absent? {
          assert (rs + [r])[j] == rs[j];
        }
      }
    }
  }

  lemma {:induction false} HighestStep(m: Marks, rs: seq<Report>, r: Report, s: Surface)
    requires Highest(m.Of(s), rs, s)
    ensures Highest(Advance(m, r.surface, r.reading).Of(s), rs + [r], s)
  {
    var before, after := m.Of(s), Advance(m, r.surface, r.reading).Of(s);
    var all := rs + [r];
    forall i: nat { CountsStep(rs, r, s, i); }
    assert all[|rs|] == r && forall i: nat | i < |rs| :: all[i] == rs[i];
    if r.surface != s {
      AdvanceRaises(m, r.surface, r.reading);
      HighestSame(before, rs, r, s);
    } else if r.reading.At? {
      assert Counts(all, |rs|, s);
      HighestAt(before, after, rs, r, s);
    } else if s.ChartSurface? && r.reading.Absent? {
      assert forall i: nat :: !Counts(all, i, s);
    } else {
      HighestSame(before, rs, r, s);
    }
  }

  /** A report that changes nothing for the surface. */
  lemma {:induction false} HighestSame(mark: Mark, rs: seq<Report>, r: Report, s: Surface)
    requires Highest(mark, rs, s) && !(r.surface == s && r.reading.At?)
    requires !(s.ChartSurface? && r == Report(ChartSurface, Absent))
    ensures Highest(mark, rs + [r], s)
  {
    var all := rs + [r];
    forall i: nat ensures Counts(all, i, s) <==> Counts(rs, i, s) { CountsStep(rs, r, s, i); }
    assert forall i: nat | i < |rs| :: all[i] == rs[i];
    if mark.At? {
      var i: nat :| Counts(rs, i, s) && rs[i].reading.block == mark.block;
      assert Counts(all, i, s) && all[i].reading.block == mark.block;
    }
  }

  /** A reading of the surface itself. */
  lemma {:induction false} HighestAt(before: Mark, after: Mark, rs: seq<Report>, r: Report, s: Surface)
    requires Highest(before, rs, s) && r.surface == s && r.reading.At?
    requires after == if !before.At? || r.reading.block > before.block then r.reading else before
    ensures Highest(after, rs + [r], s)
  {
    var all := rs + [r];
    forall i: nat { CountsStep(rs, r, s, i); }
    assert all[|rs|] == r && forall i: nat | i < |rs| :: all[i] == rs[i];
    assert Counts(all, |rs|, s);
    if before.At? && after == before {
      var i: nat :| Counts(rs, i, s) && rs[i].reading.block == before.block;
      assert Counts(all, i, s) && all[i].reading.block == after.block;
    }
    forall i: nat | Counts(all, i, s) ensures all[i].reading.block <= after.block {
      if i < |rs| { assert Counts(rs, i, s); }
    }
  }

  /** A surface's mark is the highest block it has reported, for the chart since it last had none. */
  lemma {:induction false} MarksFollowReports(rs: seq<Report>, s: Surface)
    ensures Highest(ObservedAll(BLANK_PAGE, rs).marks.Of(s), rs, s)
    decreases |rs|
  {
    if rs != [] {
      var init, last := rs[..|rs| - 1], rs[|rs| - 1];
      MarksFollowReports(init, s);
      HighestStep(ObservedAll(BLANK_PAGE, init).marks, init, last, s);
      assert rs == init + [last];
    }
  }

  /** What is retired is the highest floor there has been. */
  lemma {:induction false} RetiredIsHighestFloor(rs: seq<Report>)
    ensures var retired := ObservedAll(BLANK_PAGE, rs).retired;
      (forall n: nat | n <= |rs| && FloorAfter(rs, n).Some? ::
         retired.Some? && FloorAfter(rs, n).value <= retired.value)
      && (retired.Some? ==> exists n: nat :: n <= |rs| && FloorAfter(rs, n) == retired)
    decreases |rs|
  {
    if rs != [] {
      var init := rs[..|rs| - 1];
      RetiredIsHighestFloor(init);
      forall n: nat | n < |rs| ensures FloorAfter(rs, n) == FloorAfter(init, n) { assert rs[..n] == init[..n]; }
      assert rs[..|rs|] == rs;
      var before, after := ObservedAll(BLANK_PAGE, init).retired, ObservedAll(BLANK_PAGE, rs).retired;
      assert FloorAfter(rs, |rs|) == SafeFloor(ObservedAll(BLANK_PAGE, rs).marks);
      if before.Some? {
        var n: nat :| n <= |init| && FloorAfter(init, n) == before;
        assert FloorAfter(rs, n) == before;
      }
    }
  }

  /** The floor after the first n reports. */
  function FloorAfter(rs: seq<Report>, n: nat): Option<nat>
    requires n <= |rs|
  {
    SafeFloor(ObservedAll(BLANK_PAGE, rs[..n]).marks)
  }

  // ---------------------------------------------------------------- what a surface shows

  predicate AboveFloor(floor: Option<nat>, block: nat) {
    floor.None? || block > floor.value
  }

  /** The hook's return value: the buffer above the current floor. */
  function Returned(events: seq<Live>, floor: Option<nat>): seq<Live> {
    Sorting.Select(events, (e: Live) => AboveFloor(floor, e.block))
  }

  /** reconcileRealtimeTrades: what the snapshot does not have yet, in chain order. */
  function Reconciled(events: seq<Live>, through: Option<nat>, canonical: set<LogKey>): seq<Live> {
    Sorted(Sorting.Select(events, (e: Live) => AboveFloor(through, e.block) && e.Identity() !in canonical))
  }

  /** How often a list shows a trade. */
  function Times(events: seq<Live>, id: LogKey): nat
    decreases |events|
  {
    if events == [] then 0
    else Times(events[..|events| - 1], id) + (if events[|events| - 1].Identity() == id then 1 else 0)
  }

  // ---------------------------------------------------------------- counting

  lemma {:induction false} TimesAppend(events: seq<Live>, e: Live, id: LogKey)
    ensures Times(events + [e], id) == Times(events, id) + (if e.Identity() == id then 1 else 0)
  {
    assert (events + [e])[..|events|] == events;
  }

  lemma {:induction false} TimesInsert(s: seq<Live>, e: Live, id: LogKey)
    ensures Times(Sorting.Insert(s, e, Earlier), id) == Times(s, id) + (if e.Identity() == id then 1 else 0)
    decreases |s|
  {
    if s == [] || !Earlier(e, s[|s| - 1]) {
      TimesAppend(s, e, id);
    } else {
      var init, last := s[..|s| - 1], s[|s| - 1];
      TimesInsert(init, e, id);
      TimesAppend(Sorting.Insert(init, e, Earlier), last, id);
    }
  }

  lemma {:induction false} TimesSorted(s: seq<Live>, id: LogKey)
    ensures Times(Sorted(s), id) == Times(s, id)
    decreases |s|
  {
    if s != [] {
      TimesSorted(s[..|s| - 1], id);
      TimesInsert(Sorted(s[..|s| - 1]), s[|s| - 1], id);
    }
  }

  lemma {:induction false} TimesOnce(s: seq<Live>, e: Live)
    requires OneEach(s) && e in s
    ensures Times(s, e.Identity()) == 1
    decreases |s|
  {
    var init, last := s[..|s| - 1], s[|s| - 1];
    assert s == init + [last];
    if last == e {
      NeverListed(init, e.Identity());
    } else {
      assert e in init;
      var i :| 0 <= i < |init| && init[i] == e;
      assert s[i].Identity() != s[|s| - 1].Identity();
      TimesOnce(init, e);
    }
  }

  lemma {:induction false} NeverListed(s: seq<Live>, id: LogKey)
    requires forall e | e in s :: e.Identity() != id
    ensures Times(s, id) == 0
    decreases |s|
  {
    if s != [] {
      assert s == s[..|s| - 1] + [s[|s| - 1]];
      NeverListed(s[..|s| - 1], id);
    }
  }

  lemma {:induction false} SelectOneEach(s: seq<Live>, keep: Live -> bool)
    requires OneEach(s)
    ensures OneEach(Sorting.Select(s, keep))
    decreases |s|
  {
    if s != [] {
      var init, last := s[..|s| - 1], s[|s| - 1];
      SelectOneEach(init, keep);
      Sorting.SelectMembers(init, keep);
      forall x | x in Sorting.Select(init, keep) ensures x.Identity() != last.Identity() {
        var i :| 0 <= i < |init| && init[i] == x;
        assert s[i] == x && s[|s| - 1] == last;
      }
    }
  }

  /** A surface's overlay: the trades above its snapshot that the snapshot does not list, in order. */
  lemma {:induction false} ReconciledIs(events: seq<Live>, through: Option<nat>, canonical: set<LogKey>)
    requires OneEach(events)
    ensures var shown := Reconciled(events, through, canonical);
      (forall e :: e in shown <==>
         e in events && (through.Some? ==> e.block > through.value) && LogKey(e.tx, e.index) !in canonical)
      && forall i, j | 0 <= i < j < |shown| :: Ordered(shown[i], shown[j])
  {
    var keep := (e: Live) => AboveFloor(through, e.block) && e.Identity() !in canonical;
    var kept := Sorting.Select(events, keep);
    SelectOneEach(events, keep);
    Sorting.SelectMembers(events, keep);
    SortedOrdered(kept);
    forall e ensures e in Sorted(kept) <==> e in kept { assert e in Sorted(kept) <==> e in multiset(Sorted(kept)); }
  }

  // ---------------------------------------------------------------- retirement

  /** Forgetting at a floor changes nothing for a surface whose snapshot has reached it. */
  lemma {:induction false} RetirementInvisible(known: seq<Live>, retired: Option<nat>, floor: Option<nat>, through: nat,
                                               canonical: set<LogKey>)
    requires retired.Some? ==> retired.value <= through
    requires floor.Some? ==> floor.value <= through
    ensures Reconciled(Returned(Returned(known, retired), floor), Some(through), canonical)
         == Reconciled(known, Some(through), canonical)
  {
    var last := (e: Live) => AboveFloor(Some(through), e.block) && e.Identity() !in canonical;
    var both := (e: Live) => AboveFloor(floor, e.block) && AboveFloor(retired, e.block);
    Sorting.SelectTwice(known, (e: Live) => AboveFloor(retired, e.block), (e: Live) => AboveFloor(floor, e.block),
      both);
    Sorting.SelectTwice(known, both, last, last);
  }

  /** Every known trade is shown exactly once by a surface whose snapshot has reached the retired
      floor and lists everything known up to its own block: by the snapshot or by the overlay. */
  lemma {:induction false} ShownOnce(known: seq<Live>, retired: Option<nat>, floor: Option<nat>, through: nat,
                                     canonical: set<LogKey>, e: Live)
    requires OneEach(known) && e in known
    requires (retired.Some? ==> retired.value <= through) && (floor.Some? ==> floor.value <= through)
    requires e.block <= through ==> e.Identity() in canonical
    ensures (if e.Identity() in canonical then 1 else 0)
          + Times(Reconciled(Returned(Returned(known, retired), floor), Some(through), canonical), e.Identity()) == 1
  {
    RetirementInvisible(known, retired, floor, through, canonical);
    var keep := (x: Live) => AboveFloor(Some(through), x.block) && x.Identity() !in canonical;
    var shown := Sorting.Select(known, keep);
    TimesSorted(shown, e.Identity());
    Sorting.SelectMembers(known, keep);
    if e.Identity() in canonical {
      NeverListed(shown, e.Identity());
    } else {
      SelectOneEach(known, keep);
      TimesOnce(shown, e);
    }
  }

  /** The condition matters: a surface below the retired floor misses every retired trade above it. */
  lemma {:induction false} BelowFloorMisses(known: seq<Live>, retired: nat, through: nat, canonical: set<LogKey>,
                                            e: Live)
    requires OneEach(known) && e in known && through < e.block <= retired && e.Identity() !in canonical
    ensures Times(Reconciled(Returned(known, Some(retired)), Some(through), canonical), e.Identity()) == 0
  {
    var above := Returned(known, Some(retired));
    var keep := (x: Live) => AboveFloor(Some(through), x.block) && x.Identity() !in canonical;
    Sorting.SelectMembers(known, (x: Live) => AboveFloor(Some(retired), x.block));
    Sorting.SelectMembers(above, keep);
    TimesSorted(Sorting.Select(above, keep), e.Identity());
    forall x | x in Sorting.Select(above, keep) ensures x.Identity() != e.Identity() {
      var i, j :| 0 <= i < |known| && 0 <= j < |known| && known[i] == x && known[j] == e;
      assert i < j || j < i || i == j;
    }
    NeverListed(Sorting.Select(above, keep), e.Identity());
  }

  // ---------------------------------------------------------------- the hook

  predicate Has(events: seq<Live>, id: LogKey) {
    exists e | e in events :: e.Identity() == id
  }

  function Without(events: seq<Live>, id: LogKey): seq<Live> {
    Sorting.Select(events, (e: Live) => e.Identity() != id)
  }

  lemma {:induction false} WithoutLacks(events: seq<Live>, id: LogKey)
    ensures !Has(Without(events, id), id)
    ensures OneEach(events) ==> OneEach(Without(events, id))
  {
    Sorting.SelectMembers(events, (e: Live) => e.Identity() != id);
    if OneEach(events) { SelectOneEach(events, (e: Live) => e.Identity() != id); }
  }

  /** Removing commutes with the floor. */
  lemma {:induction false} WithoutReturned(events: seq<Live>, id: LogKey, floor: Option<nat>)
    ensures Returned(Without(events, id), floor) == Without(Returned(events, floor), id)
  {
    var keep, above := (e: Live) => e.Identity() != id, (e: Live) => AboveFloor(floor, e.block);
    var both := (e: Live) => AboveFloor(floor, e.block) && e.Identity() != id;
    Sorting.SelectTwice(events, keep, above, both);
    Sorting.SelectTwice(events, above, keep, both);
  }

  lemma {:induction false} Unaffected(events: seq<Live>, id: LogKey)
    requires !Has(events, id)
    ensures Without(events, id) == events
  {
    Sorting.SelectAll(events, (e: Live) => e.Identity() != id);
  }

  /** useTokenRealtimeTrades for one token: the event buffer and the watermark ref. `known` is the
      buffer as it would be had nothing ever been retired. */
  class LiveFeed {
    var events: seq<Live>
    var watermark: Option<nat>
    ghost var known: seq<Live>

    ghost predicate Valid()
      reads this
    {
      OneEach(known) && events == Returned(known, watermark) && |events| <= DEDUPE_CAPACITY
    }

    constructor ()
      ensures Valid() && known == [] && watermark.None?
    {
      events, watermark, known := [], None, [];
    }

    /** The effect on a new page-wide floor. */
    method Retire(through: nat)
      requires Valid()
      modifies this
      ensures Valid() && known == old(known)
      ensures watermark
        == Some(if old(watermark).Some? && old(watermark).value > through then old(watermark).value else through)
    {
      var next := if watermark.Some? && watermark.value > through then watermark.value else through;
      var above := (e: Live) => AboveFloor(Some(next), e.block);
      ghost var mark := watermark;
      Sorting.SelectTwice(known, (e: Live) => AboveFloor(mark, e.block), above, above);
      SelectShorter(events, above);
      events := Sorting.Select(events, above);
      watermark := Some(next);
    }

    /** A removal message. */
    method ReceiveRemoval(id: LogKey)
      requires Valid()
      modifies this
      ensures Valid() && watermark == old(watermark) && known == Without(old(known), id)
    {
      WithoutReturned(known, id, watermark);
      WithoutLacks(known, id);
      SelectShorter(events, (e: Live) => e.Identity() != id);
      if Has(events, id) {
        events := Sorting.Select(events, (e: Live) => e.Identity() != id);
      } else {
        Unaffected(events, id);
      }
      known := Without(known, id);
    }

    /** [...current, event].slice(-DEDUPE_CAPACITY). */
    method Append(e: Live) returns (ghost evicted: Option<Live>)
      requires Valid() && !Has(events, e.Identity()) && AboveFloor(watermark, e.block)
      modifies this`events, this`known
      ensures Valid()
      ensures evicted.Some? ==> |old(events)| == 256 && evicted.value == old(events)[0]
      ensures known == Received(old(known), old(events), e, evicted)
    {
      var all := events + [e];
      KnownGrows(known, watermark, e);
      ghost var grown := Without(known, e.Identity()) + [e];
      if |all| > DEDUPE_CAPACITY {
        EvictFirst(grown, watermark, all);
        evicted, known := Some(all[0]), Without(grown, all[0].Identity());
        events := all[|all| - DEDUPE_CAPACITY..];
      } else {
        evicted, known := None, grown;
        events := all;
      }
    }

    /** A trade message: a duplicate or a retired trade changes nothing on screen; a new one is
        appended, evicting the oldest beyond the capacity. */
    method ReceiveTrade(e: Live) returns (ghost evicted: Option<Live>)
      requires Valid()
      modifies this`events, this`known
      ensures Valid()
      ensures evicted.Some? ==> |old(events)| == 256 && evicted.value == old(events)[0]
      ensures known == Received(old(known), old(events), e, evicted)
    {
      evicted := None;
      if Has(events, e.Identity()) { return; }
      if watermark.Some? && e.block <= watermark.value {
        KnownGrows(known, watermark, e);
        assert events + [] == events;
        known := Without(known, e.Identity()) + [e];
        return;
      }
      evicted := Append(e);
    }
  }

  /** A new trade joins both buffers, unless it is already retired. */
  lemma {:induction false} KnownGrows(known: seq<Live>, watermark: Option<nat>, e: Live)
    requires OneEach(known) && !Has(Returned(known, watermark), e.Identity())
    ensures OneEach(Without(known, e.Identity()) + [e])
    ensures Returned(Without(known, e.Identity()) + [e], watermark)
         == Returned(known, watermark) + (if AboveFloor(watermark, e.block) then [e] else [])
  {
    var others := Without(known, e.Identity());
    WithoutReturned(known, e.Identity(), watermark);
    WithoutLacks(known, e.Identity());
    Unaffected(Returned(known, watermark), e.Identity());
    Sorting.SelectAppend(others, e, (x: Live) => AboveFloor(watermark, x.block));
    AppendOneEach(others, e);
  }

  /** What the unretired buffer holds after a trade message. */
  ghost function Received(known: seq<Live>, events: seq<Live>, e: Live, evicted: Option<Live>): seq<Live> {
    if Has(events, e.Identity()) then known
    else
      var grown := Without(known, e.Identity()) + [e];
      if evicted.Some? then Without(grown, evicted.value.Identity()) else grown
  }

  lemma {:induction false} SelectShorter(s: seq<Live>, keep: Live -> bool)
    ensures |Sorting.Select(s, keep)| <= |s|
    decreases |s|
  {
    if s != [] { SelectShorter(s[..|s| - 1], keep); }
  }

  lemma {:induction false} AppendOneEach(s: seq<Live>, e: Live)
    requires OneEach(s) && !Has(s, e.Identity())
    ensures OneEach(s + [e])
  {
    assert forall i | 0 <= i < |s| :: s[i] in s;
  }

  /** Dropping the first buffered trade drops exactly that trade from the unretired buffer. */
  lemma {:induction false} EvictFirst(known: seq<Live>, watermark: Option<nat>, grown: seq<Live>)
    requires OneEach(known) && grown == Returned(known, watermark) && grown != []
    ensures OneEach(Without(known, grown[0].Identity()))
    ensures Returned(Without(known, grown[0].Identity()), watermark) == grown[1..]
  {
    var id := grown[0].Identity();
    WithoutReturned(known, id, watermark);
    WithoutLacks(known, id);
    SelectOneEach(known, (x: Live) => AboveFloor(watermark, x.block));
    DropFirst(grown);
  }

  lemma {:induction false} DropFirst(s: seq<Live>)
    requires OneEach(s) && s != []
    ensures Without(s, s[0].Identity()) == s[1..]
  {
    var id := s[0].Identity();
    assert s == [s[0]] + s[1..];
    forall x | x in s[1..] ensures x.Identity() != id { var i :| 0 <= i < |s| - 1 && s[i + 1] == x; }
    DropHead(s[0], s[1..]);
  }

  lemma {:induction false} DropHead(e: Live, rest: seq<Live>)
    requires forall x | x in rest :: x.Identity() != e.Identity()
    ensures Without([e] + rest, e.Identity()) == rest
    decreases |rest|
  {
    var keep := (x: Live) => x.Identity() != e.Identity();
    if rest == [] {
      assert [e] + rest == [] + [e];
      Sorting.SelectAppend([], e, keep);
    } else {
      var init, last := rest[..|rest| - 1], rest[|rest| - 1];
      assert rest == init + [last];
      DropHead(e, init);
      assert [e] + rest == ([e] + init) + [last];
      Sorting.SelectAppend([e] + init, last, keep);
    }
  }
}
