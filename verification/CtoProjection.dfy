/** The CTO tables, rebuilt on every Apply and Rewind by clearing the canonical flags and
    replaying the canonical CTO events in chain order. Proposals are the delicate table: a
    lifecycle UPDATE carries no canonical filter, so it can revive a row orphaned long ago. */
module CtoProjection {
  import opened Wrappers
  import opened Chain
  import opened Tables

  /** Where an event happened. */
  datatype Mark = Mark(block: nat, hash: Hash, tx: Hash, index: nat)
  {
    function Key(): LogKey { LogKey(tx, index) }
  }

  /** A canonical CTO event joined with its block's timestamp. */
  datatype CtoLog = CtoLog(emitter: Address, mark: Mark, time: nat, event: CtoEvent)

  /** Rows of the append-only CTO tables, all keyed by (transaction hash, log index). */
  datatype Record =
    | Treasury(registry: Address, treasury: Address, token: Address, controller: Address, nonce: nat, salt: Hash)
    | Checkpointed(feeManager: Address, token: Address, recipient: Address, amount: nat)
    | Claimed(feeManager: Address, token: Address, recipient: Address, amount: nat, triggeredBy: Address)
    | Asset(treasury: Address, asset: Address, controller: Address)
    | Payout(treasury: Address, asset: Address, recipient: Address, amount: nat, controller: Address)
    | Pull(treasury: Address, token: Address, asset: Address, amount: nat, triggeredBy: Address)

  datatype ProposalKey = ProposalKey(registry: Address, id: Hash)
  datatype Stage = ProposedState | AcceptedState | CancelledState | ExpiredState | ActiveState
  datatype Stamp = Stamp(time: nat, mark: Mark)
  datatype ReadyStamp = ReadyStamp(executeAfter: nat, executeDeadline: nat, mark: Mark)

  datatype Proposal = Proposal(
    token: Address, treasury: Address, creator: Address, controller: Address, previous: Address,
    metadataHash: Hash, metadataUri: string, nonce: nat, deadline: nat, created: Stamp,
    state: Stage, accepted: Option<Stamp>, ready: Option<ReadyStamp>, cancelled: Option<Stamp>,
    expired: Option<Stamp>, activated: Option<Stamp>, lifecycle: Mark)

  datatype StateKey = StateKey(feeManager: Address, token: Address)
  datatype TokenState = TokenState(registry: Address, treasury: Address, proposal: Hash, previous: Address, mark: Mark)

  datatype CtoTables = CtoTables(
    records: Table<LogKey, Record>,
    proposals: Table<ProposalKey, Proposal>,
    states: Table<StateKey, TokenState>)

  /** What a reader of the CTO tables sees. */
  datatype CtoView = CtoView(
    records: Facts<LogKey, Record>,
    proposals: Facts<ProposalKey, Proposal>,
    states: Facts<StateKey, TokenState>)

  function Visible(t: CtoTables): CtoView {
    CtoView(Canonical(t.records), Canonical(t.proposals), Canonical(t.states))
  }

  const EMPTY_CTO := CtoTables(map[], map[], map[])

  // ---------------------------------------------------------------- append-only tables

  function RecordOf(e: CtoLog): Option<Record> {
    match e.event
    case TreasuryDeployed(token, controller, treasury, nonce, salt) =>
      Some(Treasury(e.emitter, treasury, token, controller, nonce, salt))
    case FeeCheckpointed(token, previous, amount) => Some(Checkpointed(e.emitter, token, previous, amount))
    case FeesClaimed(token, recipient, amount, caller) => Some(Claimed(e.emitter, token, recipient, amount, caller))
    case AssetRegistered(asset, controller) => Some(Asset(e.emitter, asset, controller))
    case AssetTransferred(asset, recipient, amount, controller) =>
      Some(Payout(e.emitter, asset, recipient, amount, controller))
    case FeesPulled(token, asset, amount, caller) => Some(Pull(e.emitter, token, asset, amount, caller))
    case _ => None
  }

  function RecordStep(t: Table<LogKey, Record>, e: CtoLog): Table<LogKey, Record> {
    match RecordOf(e)
    case None => t
    case Some(r) => Upsert(t, e.mark.Key(), Fact(e.mark.block, e.mark.hash, r))
  }

  // ---------------------------------------------------------------- proposals

  /** The proposal an event is about; routes, ledgers and treasuries are about none. */
  function ProposalOf(e: CtoLog): Option<ProposalKey> {
    match e.event
    case Proposed(id, _, _, _, _, _, _, _, _, _) => Some(ProposalKey(e.emitter, id))
    case Accepted(id, _) => Some(ProposalKey(e.emitter, id))
    case Ready(id, _, _) => Some(ProposalKey(e.emitter, id))
    case Cancelled(id) => Some(ProposalKey(e.emitter, id))
    case Expired(id) => Some(ProposalKey(e.emitter, id))
    case Activated(id, _, _, _) => Some(ProposalKey(e.emitter, id))
    case _ => None
  }

  /** The lifecycle UPDATE's assignments; every other column keeps its old value. */
  function Amend(p: Proposal, e: CtoLog): Proposal
    requires ProposalOf(e).Some? && !e.event.Proposed?
  {
    var stamp := Stamp(e.time, e.mark);
    match e.event
    case Accepted(_, at) => p.(state := AcceptedState, accepted := Some(Stamp(at, e.mark)), lifecycle := e.mark)
    case Ready(_, after, deadline) => p.(ready := Some(ReadyStamp(after, deadline, e.mark)), lifecycle := e.mark)
    case Cancelled(_) => p.(state := CancelledState, cancelled := Some(stamp), lifecycle := e.mark)
    case Expired(_) => p.(state := ExpiredState, expired := Some(stamp), lifecycle := e.mark)
    case Activated(_, _, _, _) => p.(state := ActiveState, activated := Some(stamp), lifecycle := e.mark)
  }

  function Fresh(e: CtoLog): Proposal
    requires e.event.Proposed?
  {
    var p := e.event;
    Proposal(p.token, p.treasury, p.creator, p.controller, p.previous, p.metadataHash, p.metadataUri, p.nonce,
             p.deadline, Stamp(e.time, e.mark), ProposedState, None, None, None, None, None, e.mark)
  }

  function ProposalStep(t: Table<ProposalKey, Proposal>, e: CtoLog): Table<ProposalKey, Proposal> {
    match ProposalOf(e)
    case None => t
    case Some(k) =>
      if e.event.Proposed? then Upsert(t, k, Fact(e.mark.block, e.mark.hash, Fresh(e)))
      else if k in t then Upsert(t, k, Fact(e.mark.block, e.mark.hash, Amend(t[k].data, e)))
      else t
  }

  // ---------------------------------------------------------------- token state

  /** The canonical fee routes an activation selects. */
  predicate Routes(e: CtoLog, r: CtoLog) {
    e.event.Activated? && r.event.RouteActivated? && r.mark.tx == e.mark.tx
    && r.event.token == e.event.token && r.event.treasury == e.event.treasury
  }

  /** INSERT ... SELECT proposes one key twice, which ON CONFLICT DO UPDATE rejects. */
  predicate Ambiguous(events: seq<CtoLog>) {
    exists e, r, q | e in events && r in events && q in events ::
      Routes(e, r) && Routes(e, q) && r != q && r.emitter == q.emitter
  }

  function StateStep(t: Table<StateKey, TokenState>, e: CtoLog, all: seq<CtoLog>): Table<StateKey, TokenState> {
    if !e.event.Activated? then t
    else
      var row := Row(e.mark.block, e.mark.hash,
                     TokenState(e.emitter, e.event.treasury, e.event.id, e.event.previous, e.mark), true);
      t + map r | r in all && Routes(e, r) :: StateKey(r.emitter, e.event.token) := row
  }

  // ---------------------------------------------------------------- rebuild

  function Replay(t: CtoTables, events: seq<CtoLog>, all: seq<CtoLog>): CtoTables
    decreases |events|
  {
    if events == [] then t
    else
      var e := events[|events| - 1];
      var before := Replay(t, events[..|events| - 1], all);
      CtoTables(RecordStep(before.records, e), ProposalStep(before.proposals, e), StateStep(before.states, e, all))
  }

  function Cleared(t: CtoTables): CtoTables {
    CtoTables(OrphanAll(t.records), OrphanAll(t.proposals), OrphanAll(t.states))
  }

  datatype RebuildError = AmbiguousRoute

  function Rebuilt(t: CtoTables, events: seq<CtoLog>): Result<CtoTables, RebuildError> {
    if Ambiguous(events) then Err(AmbiguousRoute) else Ok(Replay(Cleared(t), events, events))
  }

  /** rebuildCTOTx on the tables of one transaction. */
  method RebuildCto(t: CtoTables, events: seq<CtoLog>) returns (r: Result<CtoTables, RebuildError>)
    ensures r == Rebuilt(t, events)
  {
    if Ambiguous(events) { return Err(AmbiguousRoute); }
    var tables := Cleared(t);
    for i := 0 to |events|
      invariant tables == Replay(Cleared(t), events[..i], events)
    {
      var e := events[i];
      assert events[..i + 1][..i] == events[..i];
      tables := CtoTables(RecordStep(tables.records, e), ProposalStep(tables.proposals, e),
                          StateStep(tables.states, e, events));
    }
    assert events[..|events|] == events;
    return Ok(tables);
  }

  // ---------------------------------------------------------------- what the rebuild means

  /** The latest event that writes a key decides its record: the append-only tables list
      exactly the replayed events. */
  lemma {:induction false} RecordsAreTheEvents(t: CtoTables, events: seq<CtoLog>, all: seq<CtoLog>)
    requires forall k | k in t.records :: !t.records[k].canonical
    ensures forall k | k in Canonical(Replay(t, events, all).records) ::
      exists i | 0 <= i < |events| ::
        events[i].mark.Key() == k && RecordOf(events[i]).Some?
        && Canonical(Replay(t, events, all).records)[k]
             == Fact(events[i].mark.block, events[i].mark.hash, RecordOf(events[i]).value)
    ensures forall i | 0 <= i < |events| && RecordOf(events[i]).Some? ::
      events[i].mark.Key() in Canonical(Replay(t, events, all).records)
  {
    if events != [] {
      var n := |events| - 1;
      var init := events[..n];
      RecordsAreTheEvents(t, init, all);
      var before := Canonical(Replay(t, init, all).records);
      var after := Canonical(Replay(t, events, all).records);
      forall k | k in after
        ensures exists i | 0 <= i < |events| ::
          events[i].mark.Key() == k && RecordOf(events[i]).Some?
          && after[k] == Fact(events[i].mark.block, events[i].mark.hash, RecordOf(events[i]).value)
      {
        if RecordOf(events[n]).Some? && events[n].mark.Key() == k {
        } else {
          assert k in before && after[k] == before[k];
          var i :| 0 <= i < |init| && init[i].mark.Key() == k && RecordOf(init[i]).Some?
            && before[k] == Fact(init[i].mark.block, init[i].mark.hash, RecordOf(init[i]).value);
          assert events[i] == init[i];
        }
      }
      forall i | 0 <= i < |events| && RecordOf(events[i]).Some?
        ensures events[i].mark.Key() in after
      {
        if i < n { assert events[i] == init[i]; assert init[i].mark.Key() in before; }
      }
    }
  }

  lemma {:induction false} RecordsHistoryFree(t: CtoTables, u: CtoTables, events: seq<CtoLog>, all: seq<CtoLog>)
    requires Canonical(t.records) == Canonical(u.records)
    requires Canonical(t.states) == Canonical(u.states)
    ensures Canonical(Replay(t, events, all).records) == Canonical(Replay(u, events, all).records)
    ensures Canonical(Replay(t, events, all).states) == Canonical(Replay(u, events, all).states)
  {
    if events != [] {
      var e := events[|events| - 1];
      var init := events[..|events| - 1];
      RecordsHistoryFree(t, u, init, all);
      var rt, ru := Replay(t, init, all), Replay(u, init, all);
      match RecordOf(e) {
        case None =>
        case Some(r) =>
          var f := Fact(e.mark.block, e.mark.hash, r);
          CanonicalUpsert(rt.records, e.mark.Key(), f);
          CanonicalUpsert(ru.records, e.mark.Key(), f);
      }
      CanonicalStateStep(rt.states, ru.states, e, all);
    }
  }

  lemma {:induction false} CanonicalStateStep(t: Table<StateKey, TokenState>, u: Table<StateKey, TokenState>, e: CtoLog,
                                              all: seq<CtoLog>)
    requires Canonical(t) == Canonical(u)
    ensures Canonical(StateStep(t, e, all)) == Canonical(StateStep(u, e, all))
  {
    var ct, cu := Canonical(StateStep(t, e, all)), Canonical(StateStep(u, e, all));
    forall k ensures k in ct <==> k in cu { assert k in Canonical(t) <==> k in Canonical(u); }
    forall k | k in ct ensures ct[k] == cu[k] {
      if k in Canonical(t) { assert Canonical(t)[k] == Canonical(u)[k]; }
    }
  }

  /** Does some event open (or, for `Touched`, concern) this proposal? */
  ghost predicate Opened(events: seq<CtoLog>, k: ProposalKey) {
    exists e | e in events :: ProposalOf(e) == Some(k) && e.event.Proposed?
  }

  ghost predicate Touched(events: seq<CtoLog>, k: ProposalKey) {
    exists e | e in events :: ProposalOf(e) == Some(k)
  }

  /** Every proposal the canonical events speak of is also opened by one of them. */
  ghost predicate EveryProposalOpened(events: seq<CtoLog>) {
    forall e | e in events && ProposalOf(e).Some? :: Opened(events, ProposalOf(e).value)
  }

  /** Untouched proposals keep their row; opened ones forget it. */
  lemma {:induction false} ProposalRow(t: CtoTables, u: CtoTables, events: seq<CtoLog>, all: seq<CtoLog>,
                                       k: ProposalKey)
    ensures !Touched(events, k) ==>
      (k in Replay(t, events, all).proposals <==> k in t.proposals)
      && (k in t.proposals ==> Replay(t, events, all).proposals[k] == t.proposals[k])
    ensures Opened(events, k) ==>
      k in Replay(t, events, all).proposals && k in Replay(u, events, all).proposals
      && Replay(t, events, all).proposals[k] == Replay(u, events, all).proposals[k]
      && Replay(t, events, all).proposals[k].canonical
  {
    if events != [] {
      var n := |events| - 1;
      var e, init := events[n], events[..n];
      ProposalRow(t, u, init, all, k);
      assert events == init + [e];
      if Opened(events, k) && !(ProposalOf(e) == Some(k) && e.event.Proposed?) {
        var o :| o in events && ProposalOf(o) == Some(k) && o.event.Proposed?;
        assert o in init;
        assert Opened(init, k);
      }
      if !Touched(events, k) { assert e in events; assert forall o | o in init :: o in events; }
    }
  }

  /** An orphaned row of a proposal that is touched but not opened comes back to life; without
      that row the same events leave the proposal invisible. */
  lemma {:induction false} RevivedOrAbsent(t: CtoTables, events: seq<CtoLog>, all: seq<CtoLog>, k: ProposalKey)
    requires Touched(events, k) && !Opened(events, k)
    ensures k in t.proposals ==>
      k in Replay(t, events, all).proposals && Replay(t, events, all).proposals[k].canonical
    ensures k !in t.proposals ==> k !in Replay(t, events, all).proposals
  {
    var n := |events| - 1;
    var e, init := events[n], events[..n];
    assert events == init + [e];
    assert !Opened(init, k) by { assert forall o | o in init :: o in events; }
    assert e in events;
    if Touched(init, k) {
      RevivedOrAbsent(t, init, all, k);
    } else {
      ProposalRow(t, t, init, all, k);
      var o :| o in events && ProposalOf(o) == Some(k);
      assert o == e;
    }
  }

  /** The rebuild is history-independent. */
  lemma {:induction false} RebuildForgets(t: CtoTables, u: CtoTables, events: seq<CtoLog>)
    requires !Ambiguous(events) && EveryProposalOpened(events)
    ensures Visible(Rebuilt(t, events).value) == Visible(Rebuilt(u, events).value)
  {
    var ct, cu := Cleared(t), Cleared(u);
    CanonicalOrphanAll(t.records); CanonicalOrphanAll(u.records);
    CanonicalOrphanAll(t.states); CanonicalOrphanAll(u.states);
    RecordsHistoryFree(ct, cu, events, events);
    var a, b := Replay(ct, events, events).proposals, Replay(cu, events, events).proposals;
    forall k
      ensures k in Canonical(a) <==> k in Canonical(b)
      ensures k in Canonical(a) ==> Canonical(a)[k] == Canonical(b)[k]
    {
      ProposalRow(ct, cu, events, events, k);
      ProposalRow(cu, ct, events, events, k);
      if Touched(events, k) {
        var e :| e in events && ProposalOf(e) == Some(k);
        assert Opened(events, k);
      }
    }
    assert Canonical(a) == Canonical(b);
  }

  /** History independence holds exactly when every proposal the canonical events speak of is
      opened by a canonical CTOProposed (before or after: position does not matter). */
  lemma {:induction false} HistoryFreeIff(events: seq<CtoLog>)
    requires !Ambiguous(events)
    ensures (forall t, u :: Visible(Rebuilt(t, events).value) == Visible(Rebuilt(u, events).value))
       <==> EveryProposalOpened(events)
  {
    if EveryProposalOpened(events) {
      forall t, u ensures Visible(Rebuilt(t, events).value) == Visible(Rebuilt(u, events).value) {
        RebuildForgets(t, u, events);
      }
    } else {
      var e :| e in events && ProposalOf(e).Some? && !Opened(events, ProposalOf(e).value);
      var k := ProposalOf(e).value;
      var nowhere := Mark(0, 0, 0, 0);
      var stale := Proposal(0, 0, 0, 0, 0, 0, "", 0, 0, Stamp(0, nowhere), ProposedState,
                            None, None, None, None, None, nowhere);
      var t := EMPTY_CTO.(proposals := map[k := Row(0, 0, stale, false)]);
      RevivedOrAbsent(Cleared(t), events, events, k);
      RevivedOrAbsent(Cleared(EMPTY_CTO), events, events, k);
      assert k in Visible(Rebuilt(t, events).value).proposals;
      assert k !in Visible(Rebuilt(EMPTY_CTO, events).value).proposals;
      assert Visible(Rebuilt(t, events).value) != Visible(Rebuilt(EMPTY_CTO, events).value);
    }
  }

  /** A proposal's visible state is the one its last lifecycle event gives it. */
  function StateAfter(e: CtoEvent, before: Stage): Stage {
    match e
    case Proposed(_, _, _, _, _, _, _, _, _, _) => ProposedState
    case Accepted(_, _) => AcceptedState
    case Cancelled(_) => CancelledState
    case Expired(_) => ExpiredState
    case Activated(_, _, _, _) => ActiveState
    case _ => before
  }

  ghost function LastState(events: seq<CtoLog>, k: ProposalKey): Option<Stage>
    decreases |events|
  {
    if events == [] then None
    else
      var e := events[|events| - 1];
      var before := LastState(events[..|events| - 1], k);
      if ProposalOf(e) != Some(k) then before
      else if e.event.Proposed? then Some(ProposedState)
      else if before.None? then None
      else Some(StateAfter(e.event, before.value))
  }

  /** The mark of the last event that concerns a proposal. */
  ghost predicate LastConcerned(events: seq<CtoLog>, k: ProposalKey, mark: Mark) {
    exists i | 0 <= i < |events| ::
      events[i].mark == mark && ProposalOf(events[i]) == Some(k)
      && forall j | i < j < |events| :: ProposalOf(events[j]) != Some(k)
  }

  lemma {:induction false} LastConcernedStep(init: seq<CtoLog>, e: CtoLog, k: ProposalKey, mark: Mark)
    requires if ProposalOf(e) == Some(k) then mark == e.mark else LastConcerned(init, k, mark)
    ensures LastConcerned(init + [e], k, mark)
  {
    var events := init + [e];
    if ProposalOf(e) == Some(k) {
      assert events[|init|].mark == mark;
    } else {
      var i :| 0 <= i < |init| && init[i].mark == mark && ProposalOf(init[i]) == Some(k)
        && forall j | i < j < |init| :: ProposalOf(init[j]) != Some(k);
      assert events[i].mark == mark;
    }
  }

  /** From empty tables a proposal is visible exactly once it has been opened, in the state of its
      last state-changing event since then, stamped with the last event that concerns it. */
  lemma {:induction false} ProposalsFollowEvents(events: seq<CtoLog>, all: seq<CtoLog>, k: ProposalKey)
    ensures k in Canonical(Replay(EMPTY_CTO, events, all).proposals) <==> LastState(events, k).Some?
    ensures k in Replay(EMPTY_CTO, events, all).proposals ==> Replay(EMPTY_CTO, events, all).proposals[k].canonical
    ensures LastState(events, k).Some? ==>
      var row := Canonical(Replay(EMPTY_CTO, events, all).proposals)[k];
      row.data.state == LastState(events, k).value
      && row.block == row.data.lifecycle.block && row.hash == row.data.lifecycle.hash
      && LastConcerned(events, k, row.data.lifecycle)
  {
    if events != [] {
      var n := |events| - 1;
      var e, init := events[n], events[..n];
      ProposalsFollowEvents(init, all, k);
      assert events == init + [e];
      if LastState(events, k).Some? {
        LastConcernedStep(init, e, k, Canonical(Replay(EMPTY_CTO, events, all).proposals)[k].data.lifecycle);
      }
    }
  }

  /** Does this activation write the state row of this token under this fee manager? */
  ghost predicate Writes(e: CtoLog, all: seq<CtoLog>, k: StateKey) {
    exists r | r in all :: Routes(e, r) && k == StateKey(r.emitter, e.event.token)
  }

  /** Event i is the last activation that writes this row. */
  ghost predicate LastWriter(events: seq<CtoLog>, all: seq<CtoLog>, k: StateKey, i: nat) {
    i < |events| && Writes(events[i], all, k) && forall j | i < j < |events| :: !Writes(events[j], all, k)
  }

  function StateRow(e: CtoLog): Fact<TokenState>
    requires e.event.Activated?
  {
    Fact(e.mark.block, e.mark.hash, TokenState(e.emitter, e.event.treasury, e.event.id, e.event.previous, e.mark))
  }

  lemma {:induction false} StateStepRow(t: Table<StateKey, TokenState>, e: CtoLog, all: seq<CtoLog>, k: StateKey)
    ensures Writes(e, all, k) ==>
      e.event.Activated? && k in Canonical(StateStep(t, e, all)) && Canonical(StateStep(t, e, all))[k] == StateRow(e)
    ensures !Writes(e, all, k) ==> (k in Canonical(StateStep(t, e, all)) <==> k in Canonical(t))
    ensures !Writes(e, all, k) && k in Canonical(t) ==> Canonical(StateStep(t, e, all))[k] == Canonical(t)[k]
  {
  }

  /** Some activation of the list writes this row. */
  ghost predicate Written(events: seq<CtoLog>, all: seq<CtoLog>, k: StateKey) {
    exists e | e in events :: Writes(e, all, k)
  }

  lemma {:induction false} WrittenStep(init: seq<CtoLog>, e: CtoLog, all: seq<CtoLog>, k: StateKey)
    ensures Written(init + [e], all, k) <==> Written(init, all, k) || Writes(e, all, k)
  {
    assert forall x :: x in init + [e] <==> x in init || x == e;
  }

  lemma {:induction false} LastWriterStep(init: seq<CtoLog>, e: CtoLog, all: seq<CtoLog>, k: StateKey, i: nat)
    requires LastWriter(init + [e], all, k, i)
    ensures if Writes(e, all, k) then i == |init| else LastWriter(init, all, k, i)
  {
    assert (init + [e])[|init|] == e;
    assert forall j | 0 <= j < |init| :: (init + [e])[j] == init[j];
  }

  /** A token's visible state is written by the last activation whose transaction also activated
      that token's fee route, and there is none without such an activation. */
  lemma {:induction false} StatesFollowRoutes(events: seq<CtoLog>, all: seq<CtoLog>, k: StateKey)
    ensures k in Canonical(Replay(EMPTY_CTO, events, all).states) <==> Written(events, all, k)
    ensures forall i: nat | LastWriter(events, all, k, i) ::
      events[i].event.Activated? && k in Canonical(Replay(EMPTY_CTO, events, all).states)
      && Canonical(Replay(EMPTY_CTO, events, all).states)[k] == StateRow(events[i])
  {
    if events != [] {
      var n := |events| - 1;
      var e, init := events[n], events[..n];
      assert events == init + [e];
      StatesFollowRoutes(init, all, k);
      WrittenStep(init, e, all, k);
      StateStepRow(Replay(EMPTY_CTO, init, all).states, e, all, k);
      forall i: nat | LastWriter(events, all, k, i)
        ensures events[i].event.Activated? && k in Canonical(Replay(EMPTY_CTO, events, all).states)
          && Canonical(Replay(EMPTY_CTO, events, all).states)[k] == StateRow(events[i])
      {
        LastWriterStep(init, e, all, k, i);
      }
    }
  }
}
