/** What the rebuilt CTO tables say, read off the canonical events themselves: which of a proposal's
    events are the latest in chain order, and which columns each of them wrote. */
module CtoTimeline {
  import opened Wrappers
  import opened Chain
  import opened Tables
  import opened CtoProjection
  import opened Views
  import Order
  import Reorg
  import Runs
  import Store

  // ---------------------------------------------------------------- chain order

  /** Earlier in (block, transaction index, log index); hashes only break ties. */
  predicate Precedes(v: View, j: LogKey, k: LogKey)
    requires j in v.events && k in v.events
  {
    var a, b := v.events[j], v.events[k];
    a.block < b.block
    || (a.block == b.block && a.data.txIndex < b.data.txIndex)
    || (a.block == b.block && a.data.txIndex == b.data.txIndex && j.index < k.index)
    || (a.block == b.block && a.data.txIndex == b.data.txIndex && j.index == k.index && j.tx < k.tx)
  }

  predicate Placed(v: View, p: Order.Pos) {
    var k := LogKey(p.tx, p.index);
    k in v.events && p.block == v.events[k].block && p.txIndex == v.events[k].data.txIndex
  }

  lemma {:induction false} EventOrderPlaced(v: View)
    ensures forall p | p in EventOrder(v) :: Placed(v, p) && Listed(v, p)
  {
  }

  /** The event e stands at position p. */
  ghost predicate StandsAt(v: View, e: CtoLog, p: Order.Pos) {
    Listed(v, p) && Placed(v, p) && e.mark.Key() == LogKey(p.tx, p.index)
  }

  ghost predicate Stood(v: View, e: CtoLog, ps: seq<Order.Pos>) {
    exists p | p in ps :: StandsAt(v, e, p)
  }

  ghost predicate InOrder(v: View, es: seq<CtoLog>) {
    (forall e | e in es :: e.mark.Key() in v.events)
    && forall i, j | 0 <= i < j < |es| :: Precedes(v, es[i].mark.Key(), es[j].mark.Key())
  }

  lemma {:induction false} InOrderStep(v: View, es: seq<CtoLog>, e: CtoLog)
    requires InOrder(v, es) && e.mark.Key() in v.events
    requires forall d | d in es :: Precedes(v, d.mark.Key(), e.mark.Key())
    ensures InOrder(v, es + [e])
  {
    forall d | d in es + [e] ensures d.mark.Key() in v.events { assert d in es || d == e; }
    forall i, j | 0 <= i < j < |es + [e]| ensures Precedes(v, (es + [e])[i].mark.Key(), (es + [e])[j].mark.Key()) {
      assert es[i] in es;
    }
  }

  lemma {:induction false} StoodBefore(v: View, d: CtoLog, e: CtoLog, ps: seq<Order.Pos>)
    requires Order.Ascending(ps) && ps != [] && Stood(v, d, ps[..|ps| - 1]) && StandsAt(v, e, ps[|ps| - 1])
    ensures d.mark.Key() in v.events && Precedes(v, d.mark.Key(), e.mark.Key())
  {
    var p :| p in ps[..|ps| - 1] && StandsAt(v, d, p);
    InitPrecedes(ps, p);
  }

  lemma {:induction false} StoodStill(v: View, d: CtoLog, ps: seq<Order.Pos>)
    requires ps != [] && Stood(v, d, ps[..|ps| - 1])
    ensures Stood(v, d, ps)
  {
    var p :| p in ps[..|ps| - 1] && StandsAt(v, d, p);
    assert p in ps;
  }

  lemma {:induction false} CtoLogsStood(v: View, ps: seq<Order.Pos>)
    requires forall p | p in ps :: Listed(v, p) && Placed(v, p)
    ensures forall e | e in CtoLogs(v, ps) :: Stood(v, e, ps)
    decreases |ps|
  {
    if ps != [] {
      var init, last := ps[..|ps| - 1], ps[|ps| - 1];
      assert last in ps && forall p | p in init :: p in ps;
      CtoLogsStood(v, init);
      forall d | d in CtoLogs(v, init) ensures Stood(v, d, ps) { StoodStill(v, d, ps); }
      if CtoLogAt(v, last).Some? { assert StandsAt(v, CtoLogAt(v, last).value, last); }
    }
  }

  lemma {:induction false} CtoLogsOrdered(v: View, ps: seq<Order.Pos>)
    requires Order.Ascending(ps) && forall p | p in ps :: Listed(v, p) && Placed(v, p)
    ensures InOrder(v, CtoLogs(v, ps))
    decreases |ps|
  {
    if ps != [] {
      var init, last := ps[..|ps| - 1], ps[|ps| - 1];
      assert last in ps && forall p | p in init :: p in ps;
      CtoLogsOrdered(v, init);
      CtoLogsStood(v, init);
      if CtoLogAt(v, last).Some? {
        var before, e := CtoLogs(v, init), CtoLogAt(v, last).value;
        forall d | d in before ensures Precedes(v, d.mark.Key(), e.mark.Key()) { StoodBefore(v, d, e, ps); }
        InOrderStep(v, before, e);
      }
    }
  }

  lemma {:induction false} InitPrecedes(ps: seq<Order.Pos>, p: Order.Pos)
    requires Order.Ascending(ps) && ps != [] && p in ps[..|ps| - 1]
    ensures Order.Less(p, ps[|ps| - 1])
  {
    var i :| 0 <= i < |ps| - 1 && ps[..|ps| - 1][i] == p;
    assert ps[i] == p;
  }

  /** The rebuild replays the canonical events in chain order, each once. */
  lemma {:induction false} HistoryOrdered(v: View)
    ensures InOrder(v, CtoHistory(v))
  {
    EventOrderPlaced(v);
    EventOrderListed(v);
    CtoLogsOrdered(v, EventOrder(v));
  }

  // ---------------------------------------------------------------- what an event does to its proposal

  datatype Kind = Opening | Acceptance | Readiness | Cancellation | Expiry | Activation

  datatype Which = Just(kind: Kind) | ChangingState | Any
  {
    predicate Has(k: Kind) {
      match this
      case Just(j) => k == j
      case ChangingState => k != Readiness
      case Any => true
    }
  }

  /** The lifecycle event of a proposal id. */
  function Concerns(e: CtoEvent): Option<(Kind, Hash)> {
    match e
    case Proposed(id, _, _, _, _, _, _, _, _, _) => Some((Opening, id))
    case Accepted(id, _) => Some((Acceptance, id))
    case Ready(id, _, _) => Some((Readiness, id))
    case Cancelled(id) => Some((Cancellation, id))
    case Expired(id) => Some((Expiry, id))
    case Activated(id, _, _, _) => Some((Activation, id))
    case _ => None
  }

  function StageOf(kind: Kind): Stage
    requires kind != Readiness
  {
    match kind
    case Opening => ProposedState
    case Acceptance => AcceptedState
    case Cancellation => CancelledState
    case Expiry => ExpiredState
    case Activation => ActiveState
  }

  predicate Is(e: CtoLog, k: ProposalKey, which: Which) {
    e.emitter == k.registry && Concerns(e.event).Some? && Concerns(e.event).value.1 == k.id
    && which.Has(Concerns(e.event).value.0)
  }

  /** The last such event of a list. */
  function LastOf(events: seq<CtoLog>, k: ProposalKey, which: Which): (r: Option<CtoLog>)
    ensures r.Some? ==> r.value in events && Is(r.value, k, which)
    decreases |events|
  {
    if events == [] then None
    else if Is(events[|events| - 1], k, which) then Some(events[|events| - 1])
    else LastOf(events[..|events| - 1], k, which)
  }

  /** The last event of a kind since the proposal was last opened. */
  function LastSince(events: seq<CtoLog>, k: ProposalKey, kind: Kind): (r: Option<CtoLog>)
    ensures r.Some? ==> r.value in events && Is(r.value, k, Just(kind))
    decreases |events|
  {
    if events == [] then None
    else
      var e := events[|events| - 1];
      if Is(e, k, Just(kind)) then Some(e)
      else if Is(e, k, Just(Opening)) then None
      else LastSince(events[..|events| - 1], k, kind)
  }

  // ---------------------------------------------------------------- a proposal row, column by column

  predicate OpenedBy(p: Proposal, e: CtoLog) {
    e.event.Proposed?
    && e.event == Proposed(e.event.id, p.token, p.treasury, p.creator, p.controller, p.previous, p.metadataHash,
                           p.metadataUri, p.nonce, p.deadline)
    && p.created == Stamp(e.time, e.mark)
  }

  predicate StagedBy(p: Proposal, e: CtoLog) {
    Concerns(e.event).Some? && Concerns(e.event).value.0 != Readiness && p.state == StageOf(Concerns(e.event).value.0)
  }

  function AcceptedBy(o: Option<CtoLog>): Option<Stamp> {
    match o
    case Some(CtoLog(_, mark, _, Accepted(_, at))) => Some(Stamp(at, mark))
    case _ => None
  }

  function ReadyBy(o: Option<CtoLog>): Option<ReadyStamp> {
    match o
    case Some(CtoLog(_, mark, _, Ready(_, after, deadline))) => Some(ReadyStamp(after, deadline, mark))
    case _ => None
  }

  function StampedBy(o: Option<CtoLog>): Option<Stamp> {
    match o
    case Some(e) => Some(Stamp(e.time, e.mark))
    case None => None
  }

  ghost predicate Stamped(p: Proposal, events: seq<CtoLog>, k: ProposalKey) {
    p.accepted == AcceptedBy(LastSince(events, k, Acceptance))
    && p.ready == ReadyBy(LastSince(events, k, Readiness))
    && p.cancelled == StampedBy(LastSince(events, k, Cancellation))
    && p.expired == StampedBy(LastSince(events, k, Expiry))
    && p.activated == StampedBy(LastSince(events, k, Activation))
  }

  ghost predicate Headed(p: Proposal, events: seq<CtoLog>, k: ProposalKey) {
    var o, s, l := LastOf(events, k, Just(Opening)), LastOf(events, k, ChangingState), LastOf(events, k, Any);
    o.Some? && OpenedBy(p, o.value) && s.Some? && StagedBy(p, s.value) && l.Some? && p.lifecycle == l.value.mark
  }

  /** Every column of a proposal row, by the event that wrote it. */
  ghost predicate RowIs(p: Proposal, events: seq<CtoLog>, k: ProposalKey) {
    Headed(p, events, k) && Stamped(p, events, k)
  }

  lemma {:induction false} LastStep(init: seq<CtoLog>, e: CtoLog, k: ProposalKey, which: Which)
    ensures LastOf(init + [e], k, which) == if Is(e, k, which) then Some(e) else LastOf(init, k, which)
  {
    assert (init + [e])[..|init|] == init;
  }

  function Since(before: Option<CtoLog>, e: CtoLog, k: ProposalKey, kind: Kind): Option<CtoLog> {
    if Is(e, k, Just(kind)) then Some(e) else if Is(e, k, Just(Opening)) then None else before
  }

  lemma {:induction false} SinceStep(init: seq<CtoLog>, e: CtoLog, k: ProposalKey, kind: Kind)
    ensures LastSince(init + [e], k, kind) == Since(LastSince(init, k, kind), e, k, kind)
  {
    assert (init + [e])[..|init|] == init;
  }

  lemma {:induction false} SinceSteps(init: seq<CtoLog>, e: CtoLog, k: ProposalKey)
    ensures forall kind :: LastSince(init + [e], k, kind) == Since(LastSince(init, k, kind), e, k, kind)
  {
    forall kind ensures LastSince(init + [e], k, kind) == Since(LastSince(init, k, kind), e, k, kind) {
      SinceStep(init, e, k, kind);
    }
  }

  /** What an update assigns to the stamps. */
  lemma {:induction false} AmendStamps(p: Proposal, e: CtoLog, k: ProposalKey)
    requires Is(e, k, Any) && !e.event.Proposed?
    ensures !Is(e, k, Just(Opening)) && ProposalOf(e) == Some(k)
    ensures Amend(p, e).accepted == if Is(e, k, Just(Acceptance)) then AcceptedBy(Some(e)) else p.accepted
    ensures Amend(p, e).ready == if Is(e, k, Just(Readiness)) then ReadyBy(Some(e)) else p.ready
    ensures Amend(p, e).cancelled == if Is(e, k, Just(Cancellation)) then StampedBy(Some(e)) else p.cancelled
    ensures Amend(p, e).expired == if Is(e, k, Just(Expiry)) then StampedBy(Some(e)) else p.expired
    ensures Amend(p, e).activated == if Is(e, k, Just(Activation)) then StampedBy(Some(e)) else p.activated
  {
  }

  lemma {:induction false} StampsOpen(init: seq<CtoLog>, e: CtoLog, k: ProposalKey)
    requires Is(e, k, Just(Opening))
    ensures Stamped(Fresh(e), init + [e], k)
  {
    SinceSteps(init, e, k);
  }

  lemma {:induction false} StampsAmend(p: Proposal, init: seq<CtoLog>, e: CtoLog, k: ProposalKey)
    requires Stamped(p, init, k) && Is(e, k, Any) && !e.event.Proposed?
    ensures ProposalOf(e) == Some(k) && Stamped(Amend(p, e), init + [e], k)
  {
    AmendStamps(p, e, k);
    SinceSteps(init, e, k);
  }

  /** The lifecycle columns with one more event. */
  lemma {:induction false} StampsStep(p: Proposal, q: Proposal, init: seq<CtoLog>, e: CtoLog, k: ProposalKey)
    requires Stamped(p, init, k)
    requires !Is(e, k, Any) ==> q == p
    requires Is(e, k, Any) ==> q == if e.event.Proposed? then Fresh(e) else Amend(p, e)
    ensures Stamped(q, init + [e], k)
  {
    if Is(e, k, Just(Opening)) {
      StampsOpen(init, e, k);
    } else if Is(e, k, Any) {
      StampsAmend(p, init, e, k);
    } else {
      SinceSteps(init, e, k);
    }
  }

  lemma {:induction false} Amends(p: Proposal, e: CtoLog, o: CtoLog)
    requires ProposalOf(e).Some? && !e.event.Proposed? && OpenedBy(p, o)
    ensures OpenedBy(Amend(p, e), o) && Amend(p, e).lifecycle == e.mark
    ensures if e.event.Ready? then Amend(p, e).state == p.state else StagedBy(Amend(p, e), e)
  {
  }

  lemma {:induction false} Opens(e: CtoLog)
    requires e.event.Proposed?
    ensures OpenedBy(Fresh(e), e) && StagedBy(Fresh(e), e) && Fresh(e).lifecycle == e.mark
  {
  }

  lemma {:induction false} HeadStep(p: Proposal, q: Proposal, init: seq<CtoLog>, e: CtoLog, k: ProposalKey)
    requires Headed(p, init, k)
    requires !Is(e, k, Any) ==> q == p
    requires Is(e, k, Any) ==> q == if e.event.Proposed? then Fresh(e) else Amend(p, e)
    ensures Headed(q, init + [e], k)
  {
    LastStep(init, e, k, Just(Opening));
    LastStep(init, e, k, ChangingState);
    LastStep(init, e, k, Any);
    if Is(e, k, Any) {
      if e.event.Proposed? { Opens(e); } else { Amends(p, e, LastOf(init, k, Just(Opening)).value); }
    }
  }

  lemma {:induction false} RowStep(p: Proposal, q: Proposal, init: seq<CtoLog>, e: CtoLog, k: ProposalKey)
    requires RowIs(p, init, k)
    requires !Is(e, k, Any) ==> q == p
    requires Is(e, k, Any) ==> q == if e.event.Proposed? then Fresh(e) else Amend(p, e)
    ensures RowIs(q, init + [e], k)
  {
    HeadStep(p, q, init, e, k);
    StampsStep(p, q, init, e, k);
  }

  lemma {:induction false} RowOpens(init: seq<CtoLog>, e: CtoLog, k: ProposalKey)
    requires Is(e, k, Just(Opening))
    ensures RowIs(Fresh(e), init + [e], k)
  {
    LastStep(init, e, k, Just(Opening));
    LastStep(init, e, k, ChangingState);
    LastStep(init, e, k, Any);
    StampsOpen(init, e, k);
  }

  lemma {:induction false} ProposalStepRow(t: Table<ProposalKey, Proposal>, e: CtoLog, k: ProposalKey)
    requires Is(e, k, Just(Opening)) || k in t
    ensures k in ProposalStep(t, e)
    ensures !Is(e, k, Any) ==> ProposalStep(t, e)[k] == t[k]
    ensures Is(e, k, Any) ==>
      ProposalStep(t, e)[k]
        == Row(e.mark.block, e.mark.hash, if e.event.Proposed? then Fresh(e) else Amend(t[k].data, e), true)
  {
  }

  /** Once opened, a proposal's row is written by its events alone, whatever the table held before. */
  lemma {:induction false} RowFollows(t: CtoTables, events: seq<CtoLog>, all: seq<CtoLog>, k: ProposalKey)
    requires LastOf(events, k, Just(Opening)).Some?
    ensures var rows := Replay(t, events, all).proposals;
      k in rows && rows[k].canonical && RowIs(rows[k].data, events, k)
      && rows[k].block == rows[k].data.lifecycle.block && rows[k].hash == rows[k].data.lifecycle.hash
    decreases |events|
  {
    var init, e := events[..|events| - 1], events[|events| - 1];
    assert events == init + [e];
    var before, after := Replay(t, init, all).proposals, Replay(t, events, all).proposals;
    assert after == ProposalStep(before, e);
    if Is(e, k, Just(Opening)) {
      ProposalStepRow(before, e, k);
      RowOpens(init, e, k);
    } else {
      LastStep(init, e, k, Just(Opening));
      RowFollows(t, init, all, k);
      ProposalStepRow(before, e, k);
      RowStep(before[k].data, after[k].data, init, e, k);
    }
  }

  // ---------------------------------------------------------------- over the events themselves

  /** A canonical event of a canonical block about this proposal. */
  predicate Happens(v: View, j: LogKey, k: ProposalKey, which: Which) {
    j in v.events && v.events[j].hash in v.blocks && v.events[j].data.address == k.registry
    && v.events[j].data.payload.Cto?
    && Concerns(v.events[j].data.payload.event).Some?
    && Concerns(v.events[j].data.payload.event).value.1 == k.id
    && which.Has(Concerns(v.events[j].data.payload.event).value.0)
  }

  /** The latest of them in chain order. */
  ghost predicate Latest(v: View, j: LogKey, k: ProposalKey, which: Which) {
    Happens(v, j, k, which) && forall i | Happens(v, i, k, which) && i != j :: Precedes(v, i, j)
  }

  function EventAt(v: View, j: LogKey): CtoEvent
    requires j in v.events && v.events[j].data.payload.Cto?
  {
    v.events[j].data.payload.event
  }

  function MarkAt(v: View, j: LogKey): Mark
    requires j in v.events
  {
    Mark(v.events[j].block, v.events[j].hash, j.tx, j.index)
  }

  /** The event and the timestamp of its block. */
  function StampAt(v: View, j: LogKey): Stamp
    requires j in v.events && v.events[j].hash in v.blocks
  {
    Stamp(v.blocks[v.events[j].hash].data.time, MarkAt(v, j))
  }

  /** No event of this kind came after event o. */
  ghost predicate NoneAfter(v: View, o: LogKey, k: ProposalKey, kind: Kind)
    requires o in v.events
  {
    forall j | Happens(v, j, k, Just(kind)) :: Precedes(v, j, o)
  }

  /** Event j is the latest of its kind and came after event o. */
  ghost predicate LatestAfter(v: View, o: LogKey, j: LogKey, k: ProposalKey, kind: Kind)
    requires o in v.events
  {
    Latest(v, j, k, Just(kind)) && Precedes(v, o, j)
  }

  /** A column stamped with the latest event of a kind since event o, if there is one. */
  ghost predicate StampIs(v: View, column: Option<Stamp>, k: ProposalKey, kind: Kind, o: LogKey)
    requires o in v.events
  {
    match column
    case None => NoneAfter(v, o, k, kind)
    case Some(x) => exists j :: LatestAfter(v, o, j, k, kind) && x == StampAt(v, j)
  }

  /** An acceptance carries its own time. */
  ghost predicate AcceptanceIs(v: View, column: Option<Stamp>, k: ProposalKey, o: LogKey)
    requires o in v.events
  {
    match column
    case None => NoneAfter(v, o, k, Acceptance)
    case Some(x) => exists j ::
      LatestAfter(v, o, j, k, Acceptance) && EventAt(v, j) == Accepted(k.id, x.time) && x.mark == MarkAt(v, j)
  }

  ghost predicate ReadinessIs(v: View, column: Option<ReadyStamp>, k: ProposalKey, o: LogKey)
    requires o in v.events
  {
    match column
    case None => NoneAfter(v, o, k, Readiness)
    case Some(x) => exists j ::
      LatestAfter(v, o, j, k, Readiness) && EventAt(v, j) == Ready(k.id, x.executeAfter, x.executeDeadline)
      && x.mark == MarkAt(v, j)
  }

  ghost predicate StateIs(v: View, state: Stage, k: ProposalKey) {
    exists j :: Latest(v, j, k, ChangingState) && state == StageOf(Concerns(EventAt(v, j)).value.0)
  }

  ghost predicate LifecycleIs(v: View, mark: Mark, k: ProposalKey) {
    exists j :: Latest(v, j, k, Any) && mark == MarkAt(v, j)
  }

  /** A proposal row as its latest events make it: o opened it last. */
  ghost predicate Told(v: View, p: Proposal, k: ProposalKey, o: LogKey)
    requires Happens(v, o, k, Just(Opening))
  {
    EventAt(v, o) == Proposed(k.id, p.token, p.treasury, p.creator, p.controller, p.previous, p.metadataHash,
                              p.metadataUri, p.nonce, p.deadline)
    && p.created == StampAt(v, o) && StateIs(v, p.state, k) && LifecycleIs(v, p.lifecycle, k)
    && AcceptanceIs(v, p.accepted, k, o) && ReadinessIs(v, p.ready, k, o)
    && StampIs(v, p.cancelled, k, Cancellation, o) && StampIs(v, p.expired, k, Expiry, o)
    && StampIs(v, p.activated, k, Activation, o)
  }

  lemma {:induction false} Replayed(v: View, e: CtoLog, k: ProposalKey, which: Which)
    requires e in CtoHistory(v) && Is(e, k, which)
    ensures var j := e.mark.Key();
      Happens(v, j, k, which) && e.mark == MarkAt(v, j) && Stamp(e.time, e.mark) == StampAt(v, j)
      && EventAt(v, j) == e.event
  {
    Reorg.CtoHistoryMembers(v, e);
  }

  lemma {:induction false} HappensReplayed(v: View, j: LogKey, k: ProposalKey, which: Which) returns (e: CtoLog)
    requires Happens(v, j, k, which)
    ensures e in CtoHistory(v) && e.mark.Key() == j && Is(e, k, which)
  {
    e := CtoLog(k.registry, MarkAt(v, j), v.blocks[v.events[j].hash].data.time, EventAt(v, j));
    Reorg.CtoHistoryMembers(v, e);
  }

  lemma {:induction false} LastIndex(events: seq<CtoLog>, k: ProposalKey, which: Which) returns (i: nat)
    requires LastOf(events, k, which).Some?
    ensures i < |events| && events[i] == LastOf(events, k, which).value
    ensures forall j | i < j < |events| :: !Is(events[j], k, which)
    decreases |events|
  {
    i := |events| - 1;
    if !Is(events[i], k, which) { i := LastIndex(events[..i], k, which); }
  }

  lemma {:induction false} SinceIndex(events: seq<CtoLog>, k: ProposalKey, kind: Kind) returns (i: nat)
    requires LastSince(events, k, kind).Some?
    ensures i < |events| && events[i] == LastSince(events, k, kind).value
    ensures forall j | i < j < |events| :: !Is(events[j], k, Just(kind)) && !Is(events[j], k, Just(Opening))
    decreases |events|
  {
    i := |events| - 1;
    if !Is(events[i], k, Just(kind)) { i := SinceIndex(events[..i], k, kind); }
  }

  lemma {:induction false} NoneSince(events: seq<CtoLog>, k: ProposalKey, kind: Kind, j: nat)
    requires LastSince(events, k, kind).None? && j < |events| && Is(events[j], k, Just(kind))
    ensures exists i | j < i < |events| :: Is(events[i], k, Just(Opening))
    decreases |events|
  {
    var n := |events| - 1;
    if !Is(events[n], k, Just(Opening)) {
      NoneSince(events[..n], k, kind, j);
      var i :| j < i < n && Is(events[..n][i], k, Just(Opening));
      assert Is(events[i], k, Just(Opening));
    }
  }

  /** The last event of the replay is the latest on the chain. */
  lemma {:induction false} LastIsLatest(v: View, i: nat, k: ProposalKey, which: Which)
    requires i < |CtoHistory(v)| && Is(CtoHistory(v)[i], k, which)
    requires forall j | i < j < |CtoHistory(v)| :: !Is(CtoHistory(v)[j], k, which)
    ensures Latest(v, CtoHistory(v)[i].mark.Key(), k, which)
  {
    var h := CtoHistory(v);
    HistoryOrdered(v);
    Replayed(v, h[i], k, which);
    forall j | Happens(v, j, k, which) && j != h[i].mark.Key() ensures Precedes(v, j, h[i].mark.Key()) {
      var e := HappensReplayed(v, j, k, which);
      var m :| 0 <= m < |h| && h[m] == e;
    }
  }

  /** A stamp column: no event of the kind since the opening, or the latest one. */
  lemma {:induction false} StampTold(v: View, k: ProposalKey, kind: Kind, o: LogKey)
    requires kind != Opening && LastOf(CtoHistory(v), k, Just(Opening)).Some?
    requires o == LastOf(CtoHistory(v), k, Just(Opening)).value.mark.Key()
    ensures o in v.events
    ensures match LastSince(CtoHistory(v), k, kind)
            case None => NoneAfter(v, o, k, kind)
            case Some(e) => LatestAfter(v, o, e.mark.Key(), k, kind)
  {
    var h := CtoHistory(v);
    HistoryOrdered(v);
    var m := LastIndex(h, k, Just(Opening));
    match LastSince(h, k, kind) {
      case Some(e) =>
        var i := SinceIndex(h, k, kind);
        LastIsLatest(v, i, k, Just(kind));
        assert m < i;
      case None =>
        forall j | Happens(v, j, k, Just(kind)) ensures Precedes(v, j, o) {
          var e := HappensReplayed(v, j, k, Just(kind));
          var n :| 0 <= n < |h| && h[n] == e;
          NoneSince(h, k, kind, n);
          assert n < m;
        }
    }
  }

  lemma {:induction false} LastTold(v: View, k: ProposalKey, which: Which)
    requires LastOf(CtoHistory(v), k, which).Some?
    ensures Latest(v, LastOf(CtoHistory(v), k, which).value.mark.Key(), k, which)
  {
    var i := LastIndex(CtoHistory(v), k, which);
    LastIsLatest(v, i, k, which);
  }

  lemma {:induction false} StampColumn(v: View, column: Option<Stamp>, k: ProposalKey, kind: Kind, o: LogKey)
    requires kind != Opening && LastOf(CtoHistory(v), k, Just(Opening)).Some?
    requires o == LastOf(CtoHistory(v), k, Just(Opening)).value.mark.Key()
    requires column == StampedBy(LastSince(CtoHistory(v), k, kind))
    ensures o in v.events && StampIs(v, column, k, kind, o)
  {
    StampTold(v, k, kind, o);
    if column.Some? { Replayed(v, LastSince(CtoHistory(v), k, kind).value, k, Just(kind)); }
  }

  lemma {:induction false} AcceptanceColumn(v: View, column: Option<Stamp>, k: ProposalKey, o: LogKey)
    requires LastOf(CtoHistory(v), k, Just(Opening)).Some?
    requires o == LastOf(CtoHistory(v), k, Just(Opening)).value.mark.Key()
    requires column == AcceptedBy(LastSince(CtoHistory(v), k, Acceptance))
    ensures o in v.events && AcceptanceIs(v, column, k, o)
  {
    StampTold(v, k, Acceptance, o);
    if column.Some? { Replayed(v, LastSince(CtoHistory(v), k, Acceptance).value, k, Just(Acceptance)); }
  }

  lemma {:induction false} ReadinessColumn(v: View, column: Option<ReadyStamp>, k: ProposalKey, o: LogKey)
    requires LastOf(CtoHistory(v), k, Just(Opening)).Some?
    requires o == LastOf(CtoHistory(v), k, Just(Opening)).value.mark.Key()
    requires column == ReadyBy(LastSince(CtoHistory(v), k, Readiness))
    ensures o in v.events && ReadinessIs(v, column, k, o)
  {
    StampTold(v, k, Readiness, o);
    if column.Some? { Replayed(v, LastSince(CtoHistory(v), k, Readiness).value, k, Just(Readiness)); }
  }

  lemma {:induction false} RowTold(v: View, p: Proposal, k: ProposalKey, o: LogKey)
    requires RowIs(p, CtoHistory(v), k) && o == LastOf(CtoHistory(v), k, Just(Opening)).value.mark.Key()
    ensures Latest(v, o, k, Just(Opening)) && Told(v, p, k, o)
  {
    var h := CtoHistory(v);
    LastTold(v, k, Just(Opening));
    LastTold(v, k, ChangingState);
    LastTold(v, k, Any);
    Replayed(v, LastOf(h, k, Just(Opening)).value, k, Just(Opening));
    Replayed(v, LastOf(h, k, ChangingState).value, k, ChangingState);
    Replayed(v, LastOf(h, k, Any).value, k, Any);
    AcceptanceColumn(v, p.accepted, k, o);
    ReadinessColumn(v, p.ready, k, o);
    StampColumn(v, p.cancelled, k, Cancellation, o);
    StampColumn(v, p.expired, k, Expiry, o);
    StampColumn(v, p.activated, k, Activation, o);
  }

  lemma {:induction false} OpeningReplayed(v: View, j: LogKey, k: ProposalKey, which: Which)
    requires Happens(v, j, k, which)
    ensures LastOf(CtoHistory(v), k, which).Some?
  {
    var e := HappensReplayed(v, j, k, which);
    SomeLast(CtoHistory(v), e, k, which);
  }

  lemma {:induction false} SomeLast(events: seq<CtoLog>, e: CtoLog, k: ProposalKey, which: Which)
    requires e in events && Is(e, k, which)
    ensures LastOf(events, k, which).Some?
    decreases |events|
  {
    var n := |events| - 1;
    if !Is(events[n], k, which) {
      assert events == events[..n] + [events[n]];
      SomeLast(events[..n], e, k, which);
    }
  }

  /** After a rebuild of any tables, an opened proposal is what its canonical events say in chain order:
      opened by the latest opening, in the state of the latest event that changes it, each stamp from
      the latest event of its kind since. */
  lemma {:induction false} ProposalTimeline(t: CtoTables, v: View, j: LogKey, k: ProposalKey)
    requires !Ambiguous(CtoHistory(v)) && Happens(v, j, k, Just(Opening))
    ensures var rows := Visible(Rebuilt(t, CtoHistory(v)).value).proposals;
      k in rows && (exists o :: Latest(v, o, k, Just(Opening)) && Told(v, rows[k].data, k, o))
      && rows[k].block == rows[k].data.lifecycle.block && rows[k].hash == rows[k].data.lifecycle.hash
  {
    var h := CtoHistory(v);
    OpeningReplayed(v, j, k, Just(Opening));
    RowFollows(Cleared(t), h, h, k);
    RowTold(v, Replay(Cleared(t), h, h).proposals[k].data, k, LastOf(h, k, Just(Opening)).value.mark.Key());
  }

  // ---------------------------------------------------------------- records and token states

  /** A canonical CTO event of a canonical block. */
  predicate Canonic(v: View, j: LogKey) {
    j in v.events && v.events[j].hash in v.blocks && v.events[j].data.payload.Cto?
  }

  predicate Recorded(e: CtoEvent) {
    e.TreasuryDeployed? || e.FeeCheckpointed? || e.FeesClaimed? || e.AssetRegistered? || e.AssetTransferred?
    || e.FeesPulled?
  }

  /** The columns of an append-only row are the fields of its event and its emitter. */
  predicate Notes(r: Record, emitter: Address, e: CtoEvent) {
    match r
    case Treasury(registry, treasury, token, controller, nonce, salt) =>
      emitter == registry && e == TreasuryDeployed(token, controller, treasury, nonce, salt)
    case Checkpointed(feeManager, token, recipient, amount) =>
      emitter == feeManager && e == FeeCheckpointed(token, recipient, amount)
    case Claimed(feeManager, token, recipient, amount, triggeredBy) =>
      emitter == feeManager && e == FeesClaimed(token, recipient, amount, triggeredBy)
    case Asset(treasury, asset, controller) => emitter == treasury && e == AssetRegistered(asset, controller)
    case Payout(treasury, asset, recipient, amount, controller) =>
      emitter == treasury && e == AssetTransferred(asset, recipient, amount, controller)
    case Pull(treasury, token, asset, amount, triggeredBy) =>
      emitter == treasury && e == FeesPulled(token, asset, amount, triggeredBy)
  }

  ghost predicate RecordTold(v: View, f: Fact<Record>, j: LogKey) {
    Canonic(v, j) && f.block == v.events[j].block && f.hash == v.events[j].hash
    && Notes(f.data, v.events[j].data.address, EventAt(v, j))
  }

  lemma {:induction false} RecordNotes(e: CtoLog)
    ensures RecordOf(e).Some? <==> Recorded(e.event)
    ensures RecordOf(e).Some? ==> Notes(RecordOf(e).value, e.emitter, e.event)
  {
  }

  lemma {:induction false} CanonicReplayed(v: View, j: LogKey) returns (e: CtoLog)
    requires Canonic(v, j)
    ensures e in CtoHistory(v) && e.mark == MarkAt(v, j) && e.event == EventAt(v, j)
    ensures e.emitter == v.events[j].data.address
  {
    e := CtoLog(v.events[j].data.address, MarkAt(v, j), v.blocks[v.events[j].hash].data.time, EventAt(v, j));
    Reorg.CtoHistoryMembers(v, e);
  }

  lemma {:induction false} ReplayedCanonic(v: View, e: CtoLog)
    requires e in CtoHistory(v)
    ensures var j := e.mark.Key();
      Canonic(v, j) && e.mark == MarkAt(v, j) && e.event == EventAt(v, j) && e.emitter == v.events[j].data.address
  {
    Reorg.CtoHistoryMembers(v, e);
  }

  /** After a rebuild the append-only tables show exactly the recorded canonical events, field for field. */
  lemma {:induction false} RecordsTimeline(t: CtoTables, v: View)
    requires !Ambiguous(CtoHistory(v))
    ensures var rows := Visible(Rebuilt(t, CtoHistory(v)).value).records;
      (forall j :: j in rows <==> Canonic(v, j) && Recorded(EventAt(v, j)))
      && forall j | j in rows :: RecordTold(v, rows[j], j)
  {
    var h := CtoHistory(v);
    var rows := Visible(Rebuilt(t, h).value).records;
    RecordsAreTheEvents(Cleared(t), h, h);
    forall j | j in rows ensures RecordTold(v, rows[j], j) && Recorded(EventAt(v, j)) {
      var i :| 0 <= i < |h| && h[i].mark.Key() == j && RecordOf(h[i]).Some?
        && rows[j] == Fact(h[i].mark.block, h[i].mark.hash, RecordOf(h[i]).value);
      ReplayedCanonic(v, h[i]);
      RecordNotes(h[i]);
    }
    forall j | Canonic(v, j) && Recorded(EventAt(v, j)) ensures j in rows {
      var e := CanonicReplayed(v, j);
      RecordNotes(e);
      var i :| 0 <= i < |h| && h[i] == e;
      assert h[i].mark.Key() in rows;
    }
  }

  predicate RoutesFor(v: View, r: LogKey, k: StateKey, tx: Hash, treasury: Address) {
    Canonic(v, r) && v.events[r].data.address == k.feeManager && r.tx == tx && EventAt(v, r).RouteActivated?
    && EventAt(v, r).token == k.token && EventAt(v, r).treasury == treasury
  }

  /** Activation j selects a fee route of this fee manager in its own transaction. */
  ghost predicate Activates(v: View, j: LogKey, k: StateKey) {
    Canonic(v, j) && EventAt(v, j).Activated? && EventAt(v, j).token == k.token
    && exists r :: RoutesFor(v, r, k, j.tx, EventAt(v, j).treasury)
  }

  ghost predicate LatestActivation(v: View, j: LogKey, k: StateKey) {
    Activates(v, j, k) && forall i | Activates(v, i, k) && i != j :: Precedes(v, i, j)
  }

  lemma {:induction false} ActivatesIff(v: View, e: CtoLog, k: StateKey)
    requires e in CtoHistory(v)
    ensures CtoProjection.Writes(e, CtoHistory(v), k) <==> Activates(v, e.mark.Key(), k)
  {
    var h := CtoHistory(v);
    ReplayedCanonic(v, e);
    if CtoProjection.Writes(e, h, k) {
      var r :| r in h && Routes(e, r) && k == StateKey(r.emitter, e.event.token);
      ReplayedCanonic(v, r);
      assert RoutesFor(v, r.mark.Key(), k, e.mark.tx, e.event.treasury);
    }
    if Activates(v, e.mark.Key(), k) {
      var r :| RoutesFor(v, r, k, e.mark.tx, e.event.treasury);
      var route := CanonicReplayed(v, r);
      assert Routes(e, route) && k == StateKey(route.emitter, e.event.token);
    }
  }

  lemma {:induction false} LastWriterLatest(v: View, i: nat, k: StateKey)
    requires LastWriter(CtoHistory(v), CtoHistory(v), k, i)
    ensures LatestActivation(v, CtoHistory(v)[i].mark.Key(), k)
  {
    var h := CtoHistory(v);
    HistoryOrdered(v);
    ActivatesIff(v, h[i], k);
    forall j | Activates(v, j, k) && j != h[i].mark.Key() ensures Precedes(v, j, h[i].mark.Key()) {
      var e := CanonicReplayed(v, j);
      ActivatesIff(v, e, k);
      var m :| 0 <= m < |h| && h[m] == e;
    }
  }

  lemma {:induction false} SomeWriter(events: seq<CtoLog>, all: seq<CtoLog>, k: StateKey) returns (i: nat)
    requires Written(events, all, k)
    ensures LastWriter(events, all, k, i)
    decreases |events|
  {
    var n := |events| - 1;
    assert events == events[..n] + [events[n]];
    if CtoProjection.Writes(events[n], all, k) {
      i := n;
    } else {
      WrittenStep(events[..n], events[n], all, k);
      i := SomeWriter(events[..n], all, k);
    }
  }

  /** A rebuild from any tables leaves the same states as one from none. */
  lemma {:induction false} StatesForget(t: CtoTables, events: seq<CtoLog>)
    ensures Canonical(Replay(Cleared(t), events, events).states) == Canonical(Replay(EMPTY_CTO, events, events).states)
  {
    CanonicalOrphanAll(t.records);
    CanonicalOrphanAll(t.states);
    RecordsHistoryFree(Cleared(t), EMPTY_CTO, events, events);
  }

  ghost predicate StateChronicled(v: View, f: Fact<TokenState>, k: StateKey) {
    exists j :: LatestActivation(v, j, k) && f.block == v.events[j].block && f.hash == v.events[j].hash
      && f.data.registry == v.events[j].data.address && f.data.treasury == EventAt(v, j).treasury
      && f.data.proposal == EventAt(v, j).id && f.data.previous == EventAt(v, j).previous && f.data.mark == MarkAt(v, j)
  }

  /** After a rebuild a token has a state under a fee manager exactly when some activation selected a route
      of it, and then the state is the latest such activation's. */
  lemma {:induction false} StatesTimeline(t: CtoTables, v: View, k: StateKey)
    requires !Ambiguous(CtoHistory(v))
    ensures var rows := Visible(Rebuilt(t, CtoHistory(v)).value).states;
      (k in rows <==> exists j :: Activates(v, j, k))
      && (k in rows ==> StateChronicled(v, rows[k], k))
  {
    var h := CtoHistory(v);
    var rows := Visible(Rebuilt(t, h).value).states;
    StatesForget(t, h);
    StatesFollowRoutes(h, h, k);
    if k in rows {
      var i := SomeWriter(h, h, k);
      LastWriterLatest(v, i, k);
      ReplayedCanonic(v, h[i]);
    }
    if j :| Activates(v, j, k) {
      var e := CanonicReplayed(v, j);
      ActivatesIff(v, e, k);
      assert Written(h, h, k);
    }
  }

  // ---------------------------------------------------------------- what is refused

  /** Event r activates a fee route for activation j: same transaction, token and treasury. */
  predicate RouteIn(v: View, r: LogKey, j: LogKey) {
    Canonic(v, j) && EventAt(v, j).Activated? && Canonic(v, r) && EventAt(v, r).RouteActivated? && r.tx == j.tx
    && EventAt(v, r).token == EventAt(v, j).token && EventAt(v, r).treasury == EventAt(v, j).treasury
  }

  /** Some activation has two fee routes of one fee manager. */
  ghost predicate RoutedTwice(v: View) {
    exists j, r, q :: RouteIn(v, r, j) && RouteIn(v, q, j) && r != q
      && v.events[r].data.address == v.events[q].data.address
  }

  lemma {:induction false} AmbiguousMeans(v: View)
    ensures Ambiguous(CtoHistory(v)) <==> RoutedTwice(v)
  {
    var h := CtoHistory(v);
    if Ambiguous(h) {
      var e, r, q :| e in h && r in h && q in h && Routes(e, r) && Routes(e, q) && r != q && r.emitter == q.emitter;
      ReplayedCanonic(v, e);
      ReplayedCanonic(v, r);
      ReplayedCanonic(v, q);
      Reorg.CtoHistoryMembers(v, r);
      Reorg.CtoHistoryMembers(v, q);
      assert RouteIn(v, r.mark.Key(), e.mark.Key()) && RouteIn(v, q.mark.Key(), e.mark.Key());
    }
    if RoutedTwice(v) {
      var j, r, q :| RouteIn(v, r, j) && RouteIn(v, q, j) && r != q
        && v.events[r].data.address == v.events[q].data.address;
      var e := CanonicReplayed(v, j);
      var a := CanonicReplayed(v, r);
      var b := CanonicReplayed(v, q);
      assert Routes(e, a) && Routes(e, b);
    }
  }

  /** A rebuild is refused exactly when some activation has two fee routes of one fee manager. */
  lemma {:induction false} RebuildRefusedIff(s: Store.State, cfg: Config)
    ensures Store.Rebuild(s, cfg).Err? <==> RoutedTwice(Store.Seen(s))
  {
    AmbiguousMeans(Store.Seen(s));
  }

  // ---------------------------------------------------------------- in every index

  /** The three tables of a view, as its canonical events tell them. */
  ghost predicate Chronicle(v: View, cto: CtoView) {
    (forall j, k: ProposalKey | Happens(v, j, k, Just(Opening)) ::
       k in cto.proposals && RowChronicled(v, cto.proposals[k], k))
    && (forall j :: j in cto.records <==> Canonic(v, j) && Recorded(EventAt(v, j)))
    && (forall j | j in cto.records :: RecordTold(v, cto.records[j], j))
    && (forall k :: k in cto.states <==> exists j :: Activates(v, j, k))
    && (forall k | k in cto.states :: StateChronicled(v, cto.states[k], k))
  }

  ghost predicate RowChronicled(v: View, f: Fact<Proposal>, k: ProposalKey) {
    f.block == f.data.lifecycle.block && f.hash == f.data.lifecycle.hash
    && exists o :: Latest(v, o, k, Just(Opening)) && Told(v, f.data, k, o)
  }

  lemma {:induction false} RebuiltChronicle(t: CtoTables, v: View)
    requires !Ambiguous(CtoHistory(v))
    ensures Chronicle(v, Visible(Rebuilt(t, CtoHistory(v)).value))
  {
    var cto := Visible(Rebuilt(t, CtoHistory(v)).value);
    RecordsTimeline(t, v);
    forall j, k: ProposalKey | Happens(v, j, k, Just(Opening))
      ensures k in cto.proposals && RowChronicled(v, cto.proposals[k], k)
    {
      ProposalTimeline(t, v, j, k);
    }
    forall k
      ensures k in cto.states <==> exists j :: Activates(v, j, k)
      ensures k in cto.states ==> StateChronicled(v, cto.states[k], k)
    {
      StatesTimeline(t, v, k);
    }
  }

  /** In the index of any non-empty chain, reached by any legal run, the CTO tables are that chronicle. */
  lemma {:induction false} IndexChronicle(x: Runs.Index, cfg: Config)
    requires Runs.Faithful(x, cfg) && x.survivors != []
    ensures Chronicle(Store.Seen(x.state), Visible(x.state.cto))
  {
    Runs.BlocksListed(x.survivors, cfg);
    assert x.survivors[0].header.hash in Store.Seen(x.state).blocks;
    var t :| Runs.CtoFrom(x.state, t);
    RebuiltChronicle(t, Store.Seen(x.state));
  }
}
