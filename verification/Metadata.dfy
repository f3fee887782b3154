/** The two writers of a token's presentation metadata: the API's FinalizeMetadata calls and the
    indexer's launch transaction with its reconcileLinkedMetadata. Both are state machines over
    their statements under read-committed visibility; whoever commits second must hand the draft's
    metadata to the token. Locks are held to the end of the outer transaction. */
module Metadata {
  import opened Wrappers
  import opened Chain

  type DraftId = nat

  /** A launch identity is claimed by token address and transaction. */
  datatype Claim = Claim(token: Address, tx: Hash)

  /** What the chain says about a launch. */
  datatype Identity = Identity(creator: Address, name: string, symbol: string, supply: nat)
  type Launches = Claim -> Identity

  datatype Presentation = Presentation(description: string, imageUrl: string, metadataUrl: string, links: seq<string>)

  datatype Draft = Draft(name: string, symbol: string, supply: nat, presentation: Presentation,
                         link: Option<Claim>, creator: Option<Address>, finalized: bool)

  datatype TokenRow = TokenRow(canonical: bool, presentation: Option<Presentation>)

  predicate SameIdentity(d: Draft, i: Identity) {
    d.name == i.name && d.symbol == i.symbol && d.supply == i.supply
  }

  /** A draft linked to this launch by its creator and describing it. */
  predicate Matches(d: Draft, c: Claim, launches: Launches) {
    d.link == Some(c) && d.creator == Some(launches(c).creator) && SameIdentity(d, launches(c))
  }

  // ---------------------------------------------------------------- the system

  /** Where a FinalizeMetadata call stands: before its first statement; waiting for the claim lock;
      holding it; about to sign a link that records no creator; about to read the token; committing
      without a token; about to update the token; having updated it. */
  datatype Pc = Entered | Waiting | Locked | Signing | Reading | Committing | Updating | Updated

  /** `links`: this transaction writes the draft's link or creator. `locked`: it holds the claim lock. */
  datatype Call = Call(draft: DraftId, claim: Claim, creator: Address, pc: Pc, links: bool, locked: bool)

  datatype Stage = Upserted | Holding | Reconciled(candidate: Option<DraftId>) | Unreconciled

  /** A token row written by the open launch transaction. */
  datatype Pend = Pend(row: TokenRow, stage: Stage)

  /** Committed tables, the launches whose reconciliation failed, and the open transactions. */
  datatype Sys = Sys(tokens: map<Claim, TokenRow>, drafts: map<DraftId, Draft>, failed: set<Claim>,
                     calls: map<nat, Call>, indexer: Option<map<Claim, Pend>>)

  const EMPTY_SYS := Sys(map[], map[], {}, map[], None)

  datatype Step =
    | Save(id: DraftId, draft: Draft)
    | Enter(call: nat, draftId: DraftId, claim: Claim, creator: Address)
    | TakeDraft(call: nat) | TakeClaim(call: nat) | Link(call: nat) | Sign(call: nat) | Read(call: nat)
    | Update(call: nat) | Commit(call: nat) | Abort(call: nat)
    | Begin | Upsert(claim: Claim) | LockClaim(claim: Claim) | Reconcile(claim: Claim) | Fail(claim: Claim)
    | CommitApply | AbortApply | Rewind(claims: set<Claim>)

  predicate DraftFree(s: Sys, d: DraftId) {
    forall j | j in s.calls :: s.calls[j].draft == d ==> s.calls[j].pc.Entered?
  }

  predicate NoCallLocks(s: Sys, c: Claim) {
    forall j | j in s.calls :: s.calls[j].claim == c ==> !s.calls[j].locked
  }

  predicate IndexerLocks(s: Sys, c: Claim) {
    s.indexer.Some? && c in s.indexer.value
    && (s.indexer.value[c].stage.Holding? || s.indexer.value[c].stage.Reconciled?)
  }

  predicate NoCallUpdated(s: Sys, c: Claim) {
    forall j | j in s.calls :: s.calls[j].claim == c ==> !s.calls[j].pc.Updated?
  }

  predicate IndexerWrote(s: Sys, c: Claim) {
    s.indexer.Some? && c in s.indexer.value
  }

  function WithPc(s: Sys, i: nat, pc: Pc): Sys
    requires i in s.calls
  {
    s.(calls := s.calls[i := s.calls[i].(pc := pc)])
  }

  function Gone(s: Sys, i: nat): Sys {
    s.(calls := s.calls - {i})
  }

  /** SELECT ... FOR UPDATE of the draft and the mismatch checks. */
  function TakeDraftStep(s: Sys, i: nat): Option<Sys>
    requires i in s.calls
  {
    var f := s.calls[i];
    if !f.pc.Entered? || !DraftFree(s, f.draft) then None
    else if f.draft !in s.drafts then Some(Gone(s, i))
    else
      var d := s.drafts[f.draft];
      if d.link.Some? && d.link != Some(f.claim) then Some(Gone(s, i))
      else if d.creator.Some? && d.creator != Some(f.creator) then Some(Gone(s, i))
      else if !d.finalized && d.link.None? then Some(s.(calls := s.calls[i := f.(pc := Waiting, links := true)]))
      else if d.creator.None? then Some(s.(calls := s.calls[i := f.(pc := Signing, links := true)]))
      else Some(WithPc(s, i, Reading))
  }

  function TakeClaimStep(s: Sys, i: nat): Option<Sys>
    requires i in s.calls
  {
    var f := s.calls[i];
    if !f.pc.Waiting? || !NoCallLocks(s, f.claim) || IndexerLocks(s, f.claim) then None
    else Some(s.(calls := s.calls[i := f.(pc := Locked, locked := true)]))
  }

  /** Is the launch already claimed by another draft of the same creator? */
  predicate Claimed(s: Sys, d: DraftId, c: Claim, creator: Address) {
    exists e | e in s.drafts :: e != d && s.drafts[e].link == Some(c) && s.drafts[e].creator == Some(creator)
  }

  /** This call has written a draft's creator and has not committed. */
  predicate Keyed(f: Call) {
    f.links && (f.pc.Reading? || f.pc.Committing? || f.pc.Updating? || f.pc.Updated?)
  }

  /** The unique index makes a writer of the same (token, transaction, creator) wait for the other. */
  predicate KeyFree(s: Sys, c: Claim, creator: Address) {
    forall j | j in s.calls :: s.calls[j].claim == c && s.calls[j].creator == creator ==> !Keyed(s.calls[j])
  }

  /** Writing the creator: a committed rival is refused, an uncommitted one is waited for. */
  function WriteCreator(s: Sys, i: nat): Option<Sys>
    requires i in s.calls
  {
    var f := s.calls[i];
    if Claimed(s, f.draft, f.claim, f.creator) then Some(Gone(s, i))
    else if !KeyFree(s, f.claim, f.creator) then None
    else Some(WithPc(s, i, Reading))
  }

  /** A new link, under the claim lock. */
  function LinkStep(s: Sys, i: nat): Option<Sys>
    requires i in s.calls
  {
    if s.calls[i].pc.Locked? then WriteCreator(s, i) else None
  }

  /** A link that records no creator is signed without the claim lock. */
  function SignStep(s: Sys, i: nat): Option<Sys>
    requires i in s.calls
  {
    if s.calls[i].pc.Signing? then WriteCreator(s, i) else None
  }

  predicate CanonicalToken(s: Sys, c: Claim) {
    c in s.tokens && s.tokens[c].canonical
  }

  function ReadStep(s: Sys, i: nat, launches: Launches): Option<Sys>
    requires i in s.calls
  {
    var f := s.calls[i];
    if !f.pc.Reading? || f.draft !in s.drafts then None
    else if !CanonicalToken(s, f.claim) then Some(WithPc(s, i, Committing))
    else if !SameIdentity(s.drafts[f.draft], launches(f.claim)) || f.creator != launches(f.claim).creator then
      Some(Gone(s, i))
    else Some(WithPc(s, i, Updating))
  }

  /** UPDATE tokens, which waits for the row and sees its newest committed version. */
  function UpdateStep(s: Sys, i: nat): Option<Sys>
    requires i in s.calls
  {
    var f := s.calls[i];
    if !f.pc.Updating? || IndexerWrote(s, f.claim) || !NoCallUpdated(s, f.claim) then None
    else if !CanonicalToken(s, f.claim) then Some(Gone(s, i))
    else Some(WithPc(s, i, Updated))
  }

  function CommitStep(s: Sys, i: nat): Option<Sys>
    requires i in s.calls
  {
    var f := s.calls[i];
    if f.draft !in s.drafts then None
    else
      var d := s.drafts[f.draft];
      match f.pc
      case Committing =>
        if f.links then
          Some(Gone(s, i).(drafts := s.drafts[f.draft := d.(link := Some(f.claim), creator := Some(f.creator))]))
        else Some(Gone(s, i))
      case Updated =>
        if f.claim !in s.tokens then None
        else
          Some(Gone(s, i).(
                 drafts := s.drafts[f.draft := d.(link := Some(f.claim), creator := Some(f.creator),
                                                  finalized := true)],
                 tokens := s.tokens[f.claim := s.tokens[f.claim].(presentation := Some(d.presentation))],
                 failed := s.failed - {f.claim}))
      case _ => None
  }

  function UpsertStep(s: Sys, c: Claim): Option<Sys> {
    if s.indexer.None? || c in s.indexer.value || !NoCallUpdated(s, c) then None
    else
      var carried := if c in s.tokens then s.tokens[c].presentation else None;
      Some(s.(indexer := Some(s.indexer.value[c := Pend(TokenRow(true, carried), Upserted)])))
  }

  function LockClaimStep(s: Sys, c: Claim): Option<Sys> {
    if !IndexerWrote(s, c) || !s.indexer.value[c].stage.Upserted? || !NoCallLocks(s, c) then None
    else Some(s.(indexer := Some(s.indexer.value[c := s.indexer.value[c].(stage := Holding)])))
  }

  function Candidates(s: Sys, c: Claim, launches: Launches): set<DraftId> {
    set d | d in s.drafts && Matches(s.drafts[d], c, launches)
  }

  predicate Only(ds: set<DraftId>, d: DraftId) {
    ds == {d}
  }

  function TheCandidate(ds: set<DraftId>): (r: Option<DraftId>)
    ensures r.Some? <==> |ds| == 1
    ensures r.Some? ==> ds == {r.value}
  {
    if |ds| == 1 then
      OnlyOne(ds);
      var d :| Only(ds, d);
      Some(d)
    else None
  }

  lemma {:induction false} OnlyOne(ds: set<DraftId>)
    requires |ds| == 1
    ensures exists d :: Only(ds, d)
  {
    var d :| d in ds;
    assert |ds - {d}| == 0;
    assert Only(ds, d);
  }

  /** Reading the linked drafts FOR UPDATE and, if there is exactly one, writing the token. */
  function ReconcileStep(s: Sys, c: Claim, launches: Launches): Option<Sys> {
    var ds := Candidates(s, c, launches);
    if !IndexerWrote(s, c) || !s.indexer.value[c].stage.Holding? || !(forall d | d in ds :: DraftFree(s, d)) then None
    else
      var p := s.indexer.value[c];
      var row := match TheCandidate(ds)
                 case None => p.row
                 case Some(d) => p.row.(presentation := Some(s.drafts[d].presentation));
      Some(s.(indexer := Some(s.indexer.value[c := Pend(row, Reconciled(TheCandidate(ds)))])))
  }

  /** A failed savepoint releases its lock and is only logged. */
  function FailStep(s: Sys, c: Claim): Option<Sys> {
    if !IndexerWrote(s, c) || !(s.indexer.value[c].stage.Upserted? || s.indexer.value[c].stage.Holding?) then None
    else Some(s.(indexer := Some(s.indexer.value[c := s.indexer.value[c].(stage := Unreconciled)])))
  }

  predicate Settled(p: Pend) {
    p.stage.Reconciled? || p.stage.Unreconciled?
  }

  predicate Finalizes(ps: map<Claim, Pend>, d: DraftId) {
    exists c | c in ps :: ps[c].stage == Reconciled(Some(d))
  }

  function CommitApplyStep(s: Sys): Option<Sys> {
    if s.indexer.None? || !(forall c | c in s.indexer.value :: Settled(s.indexer.value[c])) then None
    else
      var ps := s.indexer.value;
      Some(s.(tokens := map c | c in s.tokens.Keys + ps.Keys :: if c in ps then ps[c].row else s.tokens[c],
              drafts := map d | d in s.drafts ::
                if Finalizes(ps, d) then s.drafts[d].(finalized := true) else s.drafts[d],
              failed := (set c | c in s.failed && c !in ps) + (set c | c in ps && ps[c].stage.Unreconciled?),
              indexer := None))
  }

  function RewindStep(s: Sys, cs: set<Claim>): Option<Sys> {
    if s.indexer.Some? || !(forall c | c in cs :: NoCallUpdated(s, c)) then None
    else Some(s.(tokens := map c | c in s.tokens :: if c in cs then s.tokens[c].(canonical := false) else s.tokens[c]))
  }

  /** One statement of one transaction; None when it must wait or does not apply. */
  function Next(s: Sys, step: Step, launches: Launches): Option<Sys> {
    match step
    case Save(d, draft) =>
      if d in s.drafts || draft.link.Some? || draft.creator.Some? || draft.finalized then None
      else Some(s.(drafts := s.drafts[d := draft]))
    case Enter(i, d, c, a) =>
      if i in s.calls then None else Some(s.(calls := s.calls[i := Call(d, c, a, Entered, false, false)]))
    case TakeDraft(i) => if i in s.calls then TakeDraftStep(s, i) else None
    case TakeClaim(i) => if i in s.calls then TakeClaimStep(s, i) else None
    case Link(i) => if i in s.calls then LinkStep(s, i) else None
    case Sign(i) => if i in s.calls then SignStep(s, i) else None
    case Read(i) => if i in s.calls then ReadStep(s, i, launches) else None
    case Update(i) => if i in s.calls then UpdateStep(s, i) else None
    case Commit(i) => if i in s.calls then CommitStep(s, i) else None
    case Abort(i) => Some(Gone(s, i))
    case Begin => if s.indexer.Some? then None else Some(s.(indexer := Some(map[])))
    case Upsert(c) => UpsertStep(s, c)
    case LockClaim(c) => LockClaimStep(s, c)
    case Reconcile(c) => ReconcileStep(s, c, launches)
    case Fail(c) => FailStep(s, c)
    case CommitApply => CommitApplyStep(s)
    case AbortApply => Some(s.(indexer := None))
    case Rewind(cs) => RewindStep(s, cs)
  }

  function Run(s: Sys, steps: seq<Step>, launches: Launches): Sys
    decreases |steps|
  {
    if steps == [] then s
    else
      var before := Run(s, steps[..|steps| - 1], launches);
      match Next(before, steps[|steps| - 1], launches)
      case None => before
      case Some(after) => after
  }

  // ---------------------------------------------------------------- what is promised

  /** A canonical, reconciled launch carries the metadata of its creator's draft. */
  ghost predicate HandedOver(s: Sys, launches: Launches) {
    forall c, d | CanonicalToken(s, c) && c !in s.failed && d in s.drafts && Matches(s.drafts[d], c, launches) ::
      s.tokens[c].presentation == Some(s.drafts[d].presentation)
  }

  /** At most one draft is linked per (token, transaction, creator). */
  ghost predicate OneClaim(s: Sys) {
    forall d, e | d in s.drafts && e in s.drafts && s.drafts[d].link.Some? && s.drafts[d].creator.Some?
                  && s.drafts[e].link == s.drafts[d].link && s.drafts[e].creator == s.drafts[d].creator :: d == e
  }

  /** Whatever a token carries was linked to it by the launch's own creator. */
  ghost predicate CreatorOnly(s: Sys, launches: Launches) {
    forall c | c in s.tokens && s.tokens[c].presentation.Some? ::
      Sourced(s, c, s.tokens[c].presentation.value, launches)
  }

  ghost predicate Sourced(s: Sys, c: Claim, p: Presentation, launches: Launches) {
    exists d | d in s.drafts :: Matches(s.drafts[d], c, launches) && s.drafts[d].presentation == p
  }

  /** Creators and finalization are only ever recorded together with a link. */
  ghost predicate WellFormed(s: Sys) {
    forall d | d in s.drafts :: (s.drafts[d].creator.Some? || s.drafts[d].finalized ==> s.drafts[d].link.Some?)
  }

  /** No draft is linked without a recorded creator. Rows older than the creator column may be. */
  ghost predicate NoLegacy(s: Sys) {
    forall d | d in s.drafts && s.drafts[d].link.Some? :: s.drafts[d].creator.Some?
  }

  /** A draft linked before links recorded their creator, and describing the launch. */
  predicate Legacy(d: Draft, c: Claim, launches: Launches) {
    d.link == Some(c) && d.creator.None? && SameIdentity(d, launches(c))
  }

  /** What the token already carries. */
  function Shown(s: Sys, c: Claim): Option<Presentation> {
    if c in s.tokens then s.tokens[c].presentation else None
  }

  /** The token shows the draft already, or the creator has linked another one. */
  predicate Harmless(s: Sys, d: DraftId, c: Claim, launches: Launches)
    requires d in s.drafts
  {
    Shown(s, c) == Some(s.drafts[d].presentation) || Claimed(s, d, c, launches(c).creator)
  }

  ghost predicate LegacyHarmless(s: Sys, launches: Launches) {
    forall d, c | d in s.drafts && Legacy(s.drafts[d], c, launches) :: Harmless(s, d, c, launches)
  }

  // ---------------------------------------------------------------- the invariant

  ghost predicate DraftLocks(s: Sys) {
    forall i, j | i in s.calls && j in s.calls && i != j && s.calls[i].draft == s.calls[j].draft ::
      s.calls[i].pc.Entered? || s.calls[j].pc.Entered?
  }

  ghost predicate ClaimLocks(s: Sys) {
    (forall i, j | i in s.calls && j in s.calls && i != j && s.calls[i].claim == s.calls[j].claim ::
       !s.calls[i].locked || !s.calls[j].locked)
    && (forall i | i in s.calls && s.calls[i].locked :: !IndexerLocks(s, s.calls[i].claim))
  }

  ghost predicate RowLocks(s: Sys) {
    forall i | i in s.calls && s.calls[i].pc.Updated? ::
      CanonicalToken(s, s.calls[i].claim) && !IndexerWrote(s, s.calls[i].claim)
      && forall j | j in s.calls && j != i && s.calls[j].claim == s.calls[i].claim :: !s.calls[j].pc.Updated?
  }

  /** No two calls are writing the same (token, transaction, creator). */
  ghost predicate KeyLocks(s: Sys) {
    forall i, j | i in s.calls && j in s.calls && i != j && s.calls[i].claim == s.calls[j].claim
                  && s.calls[i].creator == s.calls[j].creator :: !Keyed(s.calls[i]) || !Keyed(s.calls[j])
  }

  /** A call that writes a creator holds a draft without one, any other a draft already linked its way. */
  ghost predicate Unlinked(f: Call, d: Draft) {
    if f.links then d.creator.None? && (d.link.Some? ==> d.link == Some(f.claim))
    else d.link == Some(f.claim) && d.creator == Some(f.creator)
  }

  /** What one call knows at its program counter: a new link is made under the claim lock. */
  ghost predicate CallOk(s: Sys, f: Call, launches: Launches) {
    (f.pc.Entered? ==> !f.links && !f.locked)
    && (!f.pc.Entered? ==> f.draft in s.drafts && Unlinked(f, s.drafts[f.draft]))
    && (f.pc.Waiting? ==> f.links && !f.locked && s.drafts[f.draft].link.None?)
    && (f.pc.Locked? ==> f.links && f.locked && s.drafts[f.draft].link.None?)
    && (f.pc.Signing? ==> f.links && !f.locked && s.drafts[f.draft].link.Some?)
    && (f.pc.Reading? || f.pc.Committing? || f.pc.Updating? || f.pc.Updated? ==>
          f.locked == (f.links && s.drafts[f.draft].link.None?)
          && (f.links ==> !Claimed(s, f.draft, f.claim, f.creator)))
    && (f.pc.Committing? && f.locked && f.creator == launches(f.claim).creator ==>
          !CanonicalToken(s, f.claim) || f.claim in s.failed)
    && (f.pc.Updating? || f.pc.Updated? ==>
          SameIdentity(s.drafts[f.draft], launches(f.claim)) && f.creator == launches(f.claim).creator)
  }

  ghost predicate CallsOk(s: Sys, launches: Launches) {
    forall i | i in s.calls :: CallOk(s, s.calls[i], launches)
  }

  /** What the open launch transaction has written: a candidate's metadata or what the token carried. */
  ghost predicate PendOk(s: Sys, c: Claim, p: Pend, launches: Launches) {
    p.row.canonical
    && (if p.stage.Reconciled? && p.stage.candidate.Some? then
          p.stage.candidate.value in s.drafts && Matches(s.drafts[p.stage.candidate.value], c, launches)
        else p.row.presentation == Shown(s, c))
    && (p.stage.Reconciled? ==> forall d | d in s.drafts && Matches(s.drafts[d], c, launches) ::
          p.row.presentation == Some(s.drafts[d].presentation))
  }

  ghost predicate PendsOk(s: Sys, launches: Launches) {
    s.indexer.Some? ==> forall c | c in s.indexer.value :: PendOk(s, c, s.indexer.value[c], launches)
  }

  ghost predicate Inv(s: Sys, launches: Launches) {
    WellFormed(s) && LegacyHarmless(s, launches) && OneClaim(s) && HandedOver(s, launches)
    && DraftLocks(s) && ClaimLocks(s) && RowLocks(s) && KeyLocks(s) && CallsOk(s, launches) && PendsOk(s, launches)
  }

  // ---------------------------------------------------------------- every statement keeps it

  lemma {:induction false} CandidatesOne(s: Sys, c: Claim, launches: Launches)
    requires OneClaim(s)
    ensures |Candidates(s, c, launches)| <= 1
    ensures forall d | d in Candidates(s, c, launches) :: TheCandidate(Candidates(s, c, launches)) == Some(d)
  {
    var ds := Candidates(s, c, launches);
    if d :| d in ds {
      assert forall e | e in ds :: e == d;
      assert ds == {d};
    }
  }

  /** Links are never taken back, rows keep what they carry and nothing else changes hands. */
  ghost predicate DraftsGrow(s: Sys, t: Sys) {
    (forall d | d in s.drafts :: d in t.drafts && t.drafts[d].(finalized := false) == s.drafts[d].(finalized := false))
    && forall d | d in t.drafts && d !in s.drafts :: t.drafts[d].link.None? && t.drafts[d].creator.None?
  }

  lemma {:induction false} ClaimedSame(s: Sys, t: Sys)
    requires DraftsGrow(s, t)
    ensures forall d: DraftId, c: Claim, a: Address :: Claimed(t, d, c, a) <==> Claimed(s, d, c, a)
  {
  }

  lemma {:induction false} SaveKeeps(s: Sys, d: DraftId, draft: Draft, launches: Launches)
    requires Inv(s, launches) && Next(s, Save(d, draft), launches).Some?
    ensures Inv(Next(s, Save(d, draft), launches).value, launches)
  {
    var t := Next(s, Save(d, draft), launches).value;
    SaveData(s, d, draft, launches);
    SaveCalls(s, d, draft, launches);
    SavePends(s, d, draft, launches);
  }

  lemma {:induction false} SaveData(s: Sys, d: DraftId, draft: Draft, launches: Launches)
    requires Inv(s, launches) && Next(s, Save(d, draft), launches).Some?
    ensures var t := Next(s, Save(d, draft), launches).value;
      WellFormed(t) && LegacyHarmless(t, launches) && OneClaim(t) && HandedOver(t, launches)
  {
    var t := Next(s, Save(d, draft), launches).value;
    ClaimedSame(s, t);
    forall e, c | e in t.drafts && Legacy(t.drafts[e], c, launches) ensures Harmless(t, e, c, launches) {
      assert Harmless(s, e, c, launches);
    }
  }

  lemma {:induction false} SaveCalls(s: Sys, d: DraftId, draft: Draft, launches: Launches)
    requires Inv(s, launches) && Next(s, Save(d, draft), launches).Some?
    ensures CallsOk(Next(s, Save(d, draft), launches).value, launches)
  {
    var t := Next(s, Save(d, draft), launches).value;
    ClaimedSame(s, t);
    forall i | i in t.calls ensures CallOk(t, t.calls[i], launches) { assert CallOk(s, s.calls[i], launches); }
  }

  lemma {:induction false} SavePends(s: Sys, d: DraftId, draft: Draft, launches: Launches)
    requires Inv(s, launches) && Next(s, Save(d, draft), launches).Some?
    ensures PendsOk(Next(s, Save(d, draft), launches).value, launches)
  {
    var t := Next(s, Save(d, draft), launches).value;
    if s.indexer.Some? {
      forall c | c in s.indexer.value ensures PendOk(t, c, s.indexer.value[c], launches) {
        assert PendOk(s, c, s.indexer.value[c], launches);
      }
    }
  }

  lemma {:induction false} GoneKeeps(s: Sys, i: nat, launches: Launches)
    requires Inv(s, launches)
    ensures Inv(Gone(s, i), launches)
  {
  }

  /** A call may move to a new program counter when its own facts and locks allow it. */
  ghost predicate MayMove(s: Sys, i: nat, f: Call, launches: Launches) {
    CallOk(s, f, launches)
    && (forall j | j in s.calls && j != i && s.calls[j].draft == f.draft :: f.pc.Entered? || s.calls[j].pc.Entered?)
    && (f.locked ==>
      !IndexerLocks(s, f.claim) && forall j | j in s.calls && j != i && s.calls[j].claim == f.claim ::
        !s.calls[j].locked)
    && (Keyed(f) ==>
      forall j | j in s.calls && j != i && s.calls[j].claim == f.claim && s.calls[j].creator == f.creator ::
          !Keyed(s.calls[j]))
    && (f.pc.Updated? ==> CanonicalToken(s, f.claim) && !IndexerWrote(s, f.claim)
                          && forall j | j in s.calls && j != i && s.calls[j].claim == f.claim ::
                            !s.calls[j].pc.Updated?)
  }

  lemma {:induction false} MoveLocks(s: Sys, i: nat, f: Call, launches: Launches)
    requires Inv(s, launches) && MayMove(s, i, f, launches)
    ensures var t := s.(calls := s.calls[i := f]);
      DraftLocks(t) && ClaimLocks(t) && RowLocks(t) && KeyLocks(t)
  {
  }

  lemma {:induction false} MoveKeeps(s: Sys, i: nat, f: Call, launches: Launches)
    requires Inv(s, launches) && MayMove(s, i, f, launches)
    ensures Inv(s.(calls := s.calls[i := f]), launches)
  {
    MoveLocks(s, i, f, launches);
    var t := s.(calls := s.calls[i := f]);
    forall j | j in t.calls ensures CallOk(t, t.calls[j], launches) {
      if j != i { assert CallOk(s, s.calls[j], launches); }
    }
    assert LegacyHarmless(t, launches);
  }

  lemma {:induction false} EnterKeeps(s: Sys, i: nat, d: DraftId, c: Claim, a: Address, launches: Launches)
    requires Inv(s, launches) && i !in s.calls
    ensures Inv(s.(calls := s.calls[i := Call(d, c, a, Entered, false, false)]), launches)
  {
    MoveKeeps(s, i, Call(d, c, a, Entered, false, false), launches);
  }

  lemma {:induction false} TakeDraftKeeps(s: Sys, i: nat, launches: Launches)
    requires Inv(s, launches) && i in s.calls && TakeDraftStep(s, i).Some?
    ensures Inv(TakeDraftStep(s, i).value, launches)
  {
    var f := s.calls[i];
    assert CallOk(s, f, launches);
    GoneKeeps(s, i, launches);
    if f.draft in s.drafts {
      var d := s.drafts[f.draft];
      var g := if !d.finalized && d.link.None? then f.(pc := Waiting, links := true)
               else if d.creator.None? then f.(pc := Signing, links := true) else f.(pc := Reading);
      if !(d.link.Some? && d.link != Some(f.claim)) && !(d.creator.Some? && d.creator != Some(f.creator)) {
        MoveKeeps(s, i, g, launches);
      }
    }
  }

  lemma {:induction false} TakeClaimKeeps(s: Sys, i: nat, launches: Launches)
    requires Inv(s, launches) && i in s.calls && TakeClaimStep(s, i).Some?
    ensures Inv(TakeClaimStep(s, i).value, launches)
  {
    var f := s.calls[i];
    assert CallOk(s, f, launches);
    MoveKeeps(s, i, f.(pc := Locked, locked := true), launches);
  }

  lemma {:induction false} WriteCreatorKeeps(s: Sys, i: nat, launches: Launches)
    requires Inv(s, launches) && i in s.calls && (s.calls[i].pc.Locked? || s.calls[i].pc.Signing?)
      && WriteCreator(s, i).Some?
    ensures Inv(WriteCreator(s, i).value, launches)
  {
    var f := s.calls[i];
    assert CallOk(s, f, launches);
    GoneKeeps(s, i, launches);
    if !Claimed(s, f.draft, f.claim, f.creator) { MoveKeeps(s, i, f.(pc := Reading), launches); }
  }

  lemma {:induction false} ReadKeeps(s: Sys, i: nat, launches: Launches)
    requires Inv(s, launches) && i in s.calls && ReadStep(s, i, launches).Some?
    ensures Inv(ReadStep(s, i, launches).value, launches)
  {
    var f := s.calls[i];
    assert CallOk(s, f, launches);
    GoneKeeps(s, i, launches);
    if !CanonicalToken(s, f.claim) {
      MoveKeeps(s, i, f.(pc := Committing), launches);
    } else if SameIdentity(s.drafts[f.draft], launches(f.claim)) && f.creator == launches(f.claim).creator {
      MoveKeeps(s, i, f.(pc := Updating), launches);
    }
  }

  lemma {:induction false} UpdateKeeps(s: Sys, i: nat, launches: Launches)
    requires Inv(s, launches) && i in s.calls && UpdateStep(s, i).Some?
    ensures Inv(UpdateStep(s, i).value, launches)
  {
    var f := s.calls[i];
    assert CallOk(s, f, launches);
    GoneKeeps(s, i, launches);
    if CanonicalToken(s, f.claim) { MoveKeeps(s, i, f.(pc := Updated), launches); }
  }

  // ---------------------------------------------------------------- the API commits

  /** The committed drafts after a call has recorded its link. */
  function Linked(s: Sys, f: Call, finalized: bool): Sys
    requires f.draft in s.drafts
  {
    var d := s.drafts[f.draft];
    s.(drafts := s.drafts[f.draft := d.(link := Some(f.claim), creator := Some(f.creator), finalized := finalized)])
  }

  lemma {:induction false} LinkedOneClaim(s: Sys, i: nat, finalized: bool, launches: Launches)
    requires Inv(s, launches) && i in s.calls && (s.calls[i].pc.Committing? || s.calls[i].pc.Updated?)
    ensures s.calls[i].draft in s.drafts
    ensures WellFormed(Linked(s, s.calls[i], finalized)) && OneClaim(Linked(s, s.calls[i], finalized))
    ensures forall e | e in s.drafts && e != s.calls[i].draft ::
      !(s.drafts[e].link == Some(s.calls[i].claim) && s.drafts[e].creator == Some(s.calls[i].creator))
  {
    var f := s.calls[i];
    assert CallOk(s, f, launches);
    assert f.links ==> !Claimed(s, f.draft, f.claim, f.creator);
    assert !f.links ==> s.drafts[f.draft].link == Some(f.claim) && s.drafts[f.draft].creator == Some(f.creator);
  }

  /** A committed link takes no claim back and only adds its own. */
  lemma {:induction false} LinkedClaims(s: Sys, i: nat, finalized: bool, launches: Launches)
    requires Inv(s, launches) && i in s.calls && (s.calls[i].pc.Committing? || s.calls[i].pc.Updated?)
      && s.calls[i].draft in s.drafts
    ensures var f, t := s.calls[i], Linked(s, s.calls[i], finalized);
      forall d: DraftId, c: Claim, a: Address :: Claimed(t, d, c, a)
        <==> Claimed(s, d, c, a) || (d != f.draft && c == f.claim && a == f.creator)
  {
    var f, t := s.calls[i], Linked(s, s.calls[i], finalized);
    assert CallOk(s, f, launches);
    assert t.drafts[f.draft].link == Some(f.claim) && t.drafts[f.draft].creator == Some(f.creator);
    forall d: DraftId, c: Claim, a: Address | Claimed(s, d, c, a) ensures Claimed(t, d, c, a) {
      var e :| e in s.drafts && e != d && s.drafts[e].link == Some(c) && s.drafts[e].creator == Some(a);
      assert e in t.drafts && t.drafts[e].link == Some(c) && t.drafts[e].creator == Some(a);
    }
    forall d: DraftId, c: Claim, a: Address | Claimed(t, d, c, a) && !Claimed(s, d, c, a)
      ensures d != f.draft && c == f.claim && a == f.creator
    {
      var e :| e in t.drafts && e != d && t.drafts[e].link == Some(c) && t.drafts[e].creator == Some(a);
      assert e == f.draft;
    }
  }

  /** Other calls are not disturbed by a link that another call commits. */
  lemma {:induction false} OthersStay(s: Sys, i: nat, j: nat, finalized: bool, launches: Launches)
    requires Inv(s, launches) && i in s.calls && j in s.calls && i != j
    requires s.calls[i].pc.Committing? || s.calls[i].pc.Updated?
    requires s.calls[i].draft in s.drafts
    ensures CallOk(Linked(s, s.calls[i], finalized), s.calls[j], launches)
  {
    var f, g, t := s.calls[i], s.calls[j], Linked(s, s.calls[i], finalized);
    assert CallOk(s, f, launches) && CallOk(s, g, launches);
    LinkedClaims(s, i, finalized, launches);
    SameKeyClaimed(s, i, j, launches);
  }

  /** Of two calls on the same (token, transaction, creator) past that write, one sees the other's claim. */
  lemma {:induction false} SameKeyClaimed(s: Sys, i: nat, j: nat, launches: Launches)
    requires Inv(s, launches) && i in s.calls && j in s.calls && i != j
    requires s.calls[i].pc.Committing? || s.calls[i].pc.Updated?
    ensures !(Keyed(s.calls[j]) && s.calls[j].claim == s.calls[i].claim && s.calls[j].creator == s.calls[i].creator)
  {
    var f, g := s.calls[i], s.calls[j];
    assert CallOk(s, f, launches) && CallOk(s, g, launches);
    assert !f.links ==> s.drafts[f.draft].link == Some(f.claim) && s.drafts[f.draft].creator == Some(f.creator);
  }

  /** A legacy link stays harmless when any link is committed. */
  lemma {:induction false} LinkedHarmless(s: Sys, i: nat, finalized: bool, launches: Launches)
    requires Inv(s, launches) && i in s.calls && (s.calls[i].pc.Committing? || s.calls[i].pc.Updated?)
      && s.calls[i].draft in s.drafts
    ensures LegacyHarmless(Linked(s, s.calls[i], finalized), launches)
  {
    var f, t := s.calls[i], Linked(s, s.calls[i], finalized);
    LinkedClaims(s, i, finalized, launches);
    forall d, c | d in t.drafts && Legacy(t.drafts[d], c, launches) ensures Harmless(t, d, c, launches) {
      assert d != f.draft && Harmless(s, d, c, launches);
    }
  }

  /** A freshly committed link: the launch is unknown or unreconciled, or the token shows the draft already. */
  lemma {:induction false} LinkedShown(s: Sys, i: nat, launches: Launches)
    requires Inv(s, launches) && i in s.calls && s.calls[i].pc.Committing? && s.calls[i].links
      && s.calls[i].draft in s.drafts
    ensures var f, d := s.calls[i], s.drafts[s.calls[i].draft];
      f.creator == launches(f.claim).creator && SameIdentity(d, launches(f.claim)) ==>
        Shown(s, f.claim) == Some(d.presentation)
        || (f.locked && (!CanonicalToken(s, f.claim) || f.claim in s.failed) && !IndexerLocks(s, f.claim))
  {
    var f := s.calls[i];
    assert CallOk(s, f, launches);
    if !f.locked && f.creator == launches(f.claim).creator && SameIdentity(s.drafts[f.draft], launches(f.claim)) {
      assert Harmless(s, f.draft, f.claim, launches);
    }
  }

  /** So the promise holds after the commit. */
  lemma {:induction false} LinkedHandsOver(s: Sys, i: nat, launches: Launches)
    requires Inv(s, launches) && i in s.calls && s.calls[i].pc.Committing? && s.calls[i].links
      && s.calls[i].draft in s.drafts
    ensures HandedOver(Linked(s, s.calls[i], s.drafts[s.calls[i].draft].finalized), launches)
  {
    var f := s.calls[i];
    var t := Linked(s, f, s.drafts[f.draft].finalized);
    LinkedShown(s, i, launches);
    forall c, d | CanonicalToken(t, c) && c !in t.failed && d in t.drafts && Matches(t.drafts[d], c, launches)
      ensures t.tokens[c].presentation == Some(t.drafts[d].presentation)
    {
      if d != f.draft { assert Matches(s.drafts[d], c, launches); }
    }
  }

  lemma {:induction false} LinkedPends(s: Sys, i: nat, launches: Launches)
    requires Inv(s, launches) && i in s.calls && s.calls[i].pc.Committing? && s.calls[i].links
      && s.calls[i].draft in s.drafts
    ensures PendsOk(Linked(s, s.calls[i], s.drafts[s.calls[i].draft].finalized), launches)
  {
    var f := s.calls[i];
    var t := Linked(s, f, s.drafts[f.draft].finalized);
    if s.indexer.Some? {
      forall c | c in s.indexer.value ensures PendOk(t, c, s.indexer.value[c], launches) {
        LinkedPend(s, i, c, launches);
      }
    }
  }

  lemma {:induction false} LinkedPend(s: Sys, i: nat, c: Claim, launches: Launches)
    requires Inv(s, launches) && i in s.calls && s.calls[i].pc.Committing? && s.calls[i].links
      && s.calls[i].draft in s.drafts
    requires IndexerWrote(s, c)
    ensures PendOk(Linked(s, s.calls[i], s.drafts[s.calls[i].draft].finalized), c, s.indexer.value[c], launches)
  {
    var f, p := s.calls[i], s.indexer.value[c];
    var t := Linked(s, f, s.drafts[f.draft].finalized);
    assert PendOk(s, c, p, launches) && CallOk(s, f, launches);
    LinkedShown(s, i, launches);
    if p.stage.Reconciled? {
      forall d | d in t.drafts && Matches(t.drafts[d], c, launches)
        ensures p.row.presentation == Some(t.drafts[d].presentation)
      {
        if d == f.draft {
          assert p.stage.candidate.Some? ==> Claimed(s, f.draft, f.claim, f.creator);
        }
      }
    }
  }

  lemma {:induction false} CommittingKeeps(s: Sys, i: nat, launches: Launches)
    requires Inv(s, launches) && i in s.calls && s.calls[i].pc.Committing? && CommitStep(s, i).Some?
    ensures Inv(CommitStep(s, i).value, launches)
  {
    var f := s.calls[i];
    GoneKeeps(s, i, launches);
    if f.links {
      var d := s.drafts[f.draft];
      var t := Linked(s, f, d.finalized);
      LinkedOneClaim(s, i, d.finalized, launches);
      LinkedHandsOver(s, i, launches);
      LinkedPends(s, i, launches);
      LinkedHarmless(s, i, d.finalized, launches);
      forall j | j in s.calls && j != i ensures CallOk(t, s.calls[j], launches) {
        OthersStay(s, i, j, d.finalized, launches);
      }
      LinkedInv(s, i, d.finalized, launches);
    }
  }

  /** The locks of the remaining calls are untouched. */
  lemma {:induction false} LinkedInv(s: Sys, i: nat, finalized: bool, launches: Launches)
    requires Inv(s, launches) && i in s.calls && s.calls[i].draft in s.drafts
    requires var t := Linked(s, s.calls[i], finalized);
      WellFormed(t) && LegacyHarmless(t, launches) && OneClaim(t) && HandedOver(t, launches) && PendsOk(t, launches)
      && forall j | j in s.calls && j != i :: CallOk(t, s.calls[j], launches)
    ensures Inv(Gone(Linked(s, s.calls[i], finalized), i), launches)
  {
    var t := Linked(s, s.calls[i], finalized);
    var u := Gone(t, i);
    forall j | j in u.calls ensures CallOk(u, u.calls[j], launches) { assert CallOk(t, s.calls[j], launches); }
    assert LegacyHarmless(u, launches) && PendsOk(u, launches);
  }

  lemma {:induction false} UpdatedKeeps(s: Sys, i: nat, launches: Launches)
    requires Inv(s, launches) && i in s.calls && s.calls[i].pc.Updated? && CommitStep(s, i).Some?
    ensures Inv(CommitStep(s, i).value, launches)
  {
    var f := s.calls[i];
    assert CallOk(s, f, launches);
    var l, t := Linked(s, f, true), CommitStep(s, i).value;
    LinkedOneClaim(s, i, true, launches);
    forall j | j in t.calls ensures CallOk(t, t.calls[j], launches) {
      OthersStay(s, i, j, true, launches);
      UpdatedStays(s, i, j, launches);
    }
    UpdatedHandsOver(s, i, launches);
    UpdatedHarmless(s, i, launches);
    UpdatedPends(s, i, launches);
  }

  lemma {:induction false} UpdatedHandsOver(s: Sys, i: nat, launches: Launches)
    requires Inv(s, launches) && i in s.calls && s.calls[i].pc.Updated? && CommitStep(s, i).Some?
    ensures HandedOver(CommitStep(s, i).value, launches)
  {
    var f, t := s.calls[i], CommitStep(s, i).value;
    assert CallOk(s, f, launches);
    LinkedOneClaim(s, i, true, launches);
    forall c, d | CanonicalToken(t, c) && c !in t.failed && d in t.drafts && Matches(t.drafts[d], c, launches)
      ensures t.tokens[c].presentation == Some(t.drafts[d].presentation)
    {
      if c != f.claim { assert d != f.draft && CanonicalToken(s, c) && Matches(s.drafts[d], c, launches); }
    }
  }

  /** The creator's own link now stands beside any older one. */
  lemma {:induction false} UpdatedHarmless(s: Sys, i: nat, launches: Launches)
    requires Inv(s, launches) && i in s.calls && s.calls[i].pc.Updated? && CommitStep(s, i).Some?
    ensures LegacyHarmless(CommitStep(s, i).value, launches)
  {
    var f, l, t := s.calls[i], Linked(s, s.calls[i], true), CommitStep(s, i).value;
    assert CallOk(s, f, launches);
    LinkedClaims(s, i, true, launches);
    LinkedHarmless(s, i, true, launches);
    forall d, c | d in t.drafts && Legacy(t.drafts[d], c, launches) ensures Harmless(t, d, c, launches) {
      assert d != f.draft && Harmless(l, d, c, launches);
      assert Claimed(t, d, c, launches(c).creator) <==> Claimed(l, d, c, launches(c).creator);
    }
  }

  /** A second call on the same launch still waits behind the same lock or index entry. */
  lemma {:induction false} UpdatedStays(s: Sys, i: nat, j: nat, launches: Launches)
    requires Inv(s, launches) && i in s.calls && j in s.calls && i != j && s.calls[i].pc.Updated?
    requires CommitStep(s, i).Some? && CallOk(Linked(s, s.calls[i], true), s.calls[j], launches)
    ensures CallOk(CommitStep(s, i).value, s.calls[j], launches)
  {
    var f, g := s.calls[i], s.calls[j];
    assert CallOk(s, f, launches) && CallOk(s, g, launches);
    SameKeyClaimed(s, i, j, launches);
  }

  /** The open launch transaction has not written the launch whose token just changed. */
  lemma {:induction false} UpdatedPends(s: Sys, i: nat, launches: Launches)
    requires Inv(s, launches) && i in s.calls && s.calls[i].pc.Updated? && CommitStep(s, i).Some?
    ensures PendsOk(CommitStep(s, i).value, launches)
  {
    var f, t := s.calls[i], CommitStep(s, i).value;
    assert CallOk(s, f, launches);
    if s.indexer.Some? {
      forall c | c in s.indexer.value ensures PendOk(t, c, s.indexer.value[c], launches) {
        assert c != f.claim && PendOk(s, c, s.indexer.value[c], launches);
        forall d | d in t.drafts && Matches(t.drafts[d], c, launches) ensures Matches(s.drafts[d], c, launches) {
          assert d != f.draft;
        }
      }
    }
  }

  // ---------------------------------------------------------------- the indexer's statements

  /** The open launch transaction may rewrite one pending row. */
  lemma {:induction false} PendMoves(s: Sys, c: Claim, p: Pend, launches: Launches)
    requires Inv(s, launches) && s.indexer.Some? && PendOk(s, c, p, launches)
    requires NoCallUpdated(s, c)
    requires p.stage.Holding? || p.stage.Reconciled? ==> NoCallLocks(s, c)
    ensures Inv(s.(indexer := Some(s.indexer.value[c := p])), launches)
  {
    var t := s.(indexer := Some(s.indexer.value[c := p]));
    forall i | i in t.calls ensures CallOk(t, t.calls[i], launches) { assert CallOk(s, s.calls[i], launches); }
    forall e | e in t.indexer.value ensures PendOk(t, e, t.indexer.value[e], launches) {
      if e != c { assert PendOk(s, e, s.indexer.value[e], launches); }
    }
    assert LegacyHarmless(t, launches);
  }

  lemma {:induction false} UpsertKeeps(s: Sys, c: Claim, launches: Launches)
    requires Inv(s, launches) && UpsertStep(s, c).Some?
    ensures Inv(UpsertStep(s, c).value, launches)
  {
    PendMoves(s, c, UpsertStep(s, c).value.indexer.value[c], launches);
  }

  lemma {:induction false} LockClaimKeeps(s: Sys, c: Claim, launches: Launches)
    requires Inv(s, launches) && LockClaimStep(s, c).Some?
    ensures Inv(LockClaimStep(s, c).value, launches)
  {
    PendMoves(s, c, s.indexer.value[c].(stage := Holding), launches);
  }

  lemma {:induction false} FailKeeps(s: Sys, c: Claim, launches: Launches)
    requires Inv(s, launches) && FailStep(s, c).Some?
    ensures Inv(FailStep(s, c).value, launches)
  {
    PendMoves(s, c, s.indexer.value[c].(stage := Unreconciled), launches);
  }

  lemma {:induction false} ReconcileKeeps(s: Sys, c: Claim, launches: Launches)
    requires Inv(s, launches) && ReconcileStep(s, c, launches).Some?
    ensures Inv(ReconcileStep(s, c, launches).value, launches)
  {
    CandidatesOne(s, c, launches);
    var p := ReconcileStep(s, c, launches).value.indexer.value[c];
    assert PendOk(s, c, s.indexer.value[c], launches);
    assert forall d | d in s.drafts && Matches(s.drafts[d], c, launches) :: d in Candidates(s, c, launches);
    PendMoves(s, c, p, launches);
  }

  lemma {:induction false} CommitApplyKeeps(s: Sys, launches: Launches)
    requires Inv(s, launches) && CommitApplyStep(s).Some?
    ensures Inv(CommitApplyStep(s).value, launches)
  {
    var t := CommitApplyStep(s).value;
    ClaimedSame(s, t);
    forall i | i in t.calls ensures CallOk(t, t.calls[i], launches) { CommitApplyCall(s, i, launches); }
    CommitApplyHandsOver(s, launches);
    CommitApplyHarmless(s, launches);
    CommitApplyLocks(s, launches);
  }

  lemma {:induction false} CommitApplyLocks(s: Sys, launches: Launches)
    requires Inv(s, launches) && CommitApplyStep(s).Some?
    ensures var t := CommitApplyStep(s).value;
      WellFormed(t) && OneClaim(t) && DraftLocks(t) && ClaimLocks(t) && RowLocks(t) && KeyLocks(t)
  {
    var t := CommitApplyStep(s).value;
    assert t.calls == s.calls;
    forall d | d in s.drafts ensures d in t.drafts && t.drafts[d].link == s.drafts[d].link
      && t.drafts[d].creator == s.drafts[d].creator {}
    forall d | d in t.drafts && t.drafts[d].finalized && !s.drafts[d].finalized ensures t.drafts[d].link.Some? {
      var c :| c in s.indexer.value && s.indexer.value[c].stage == Reconciled(Some(d));
      assert PendOk(s, c, s.indexer.value[c], launches);
    }
  }

  lemma {:induction false} CommitApplyHandsOver(s: Sys, launches: Launches)
    requires Inv(s, launches) && CommitApplyStep(s).Some?
    ensures HandedOver(CommitApplyStep(s).value, launches)
  {
    var t, ps := CommitApplyStep(s).value, s.indexer.value;
    forall c, d | CanonicalToken(t, c) && c !in t.failed && d in t.drafts && Matches(t.drafts[d], c, launches)
      ensures t.tokens[c].presentation == Some(t.drafts[d].presentation)
    {
      assert Matches(s.drafts[d], c, launches);
      if c in ps { assert PendOk(s, c, ps[c], launches) && Settled(ps[c]); } else { assert CanonicalToken(s, c); }
    }
  }

  /** What a launch transaction writes is a candidate's metadata, or what the token carried before. */
  lemma {:induction false} CommitApplyHarmless(s: Sys, launches: Launches)
    requires Inv(s, launches) && CommitApplyStep(s).Some?
    ensures LegacyHarmless(CommitApplyStep(s).value, launches)
  {
    var t, ps := CommitApplyStep(s).value, s.indexer.value;
    ClaimedSame(s, t);
    forall d, c | d in t.drafts && Legacy(t.drafts[d], c, launches) ensures Harmless(t, d, c, launches) {
      assert Legacy(s.drafts[d], c, launches) && Harmless(s, d, c, launches);
      if c in ps {
        assert PendOk(s, c, ps[c], launches);
        if ps[c].stage.Reconciled? && ps[c].stage.candidate.Some? {
          var e := ps[c].stage.candidate.value;
          assert e != d && Matches(s.drafts[e], c, launches);
          assert Claimed(s, d, c, launches(c).creator);
        }
      }
    }
  }

  /** A call about to commit a new link without a token: only an unreconciled launch can have appeared. */
  lemma {:induction false} CommitApplyCall(s: Sys, i: nat, launches: Launches)
    requires Inv(s, launches) && CommitApplyStep(s).Some? && i in s.calls
    ensures CallOk(CommitApplyStep(s).value, s.calls[i], launches)
  {
    var f, t := s.calls[i], CommitApplyStep(s).value;
    assert CallOk(s, f, launches);
    ClaimedSame(s, t);
    if f.claim in s.indexer.value { assert Settled(s.indexer.value[f.claim]); }
  }

  lemma {:induction false} RewindKeeps(s: Sys, cs: set<Claim>, launches: Launches)
    requires Inv(s, launches) && RewindStep(s, cs).Some?
    ensures Inv(RewindStep(s, cs).value, launches)
  {
    var t := RewindStep(s, cs).value;
    ClaimedSame(s, t);
    forall i | i in t.calls ensures CallOk(t, t.calls[i], launches) { assert CallOk(s, s.calls[i], launches); }
    assert forall c :: Shown(t, c) == Shown(s, c);
    forall d, c | d in t.drafts && Legacy(t.drafts[d], c, launches) ensures Harmless(t, d, c, launches) {
      assert Harmless(s, d, c, launches);
    }
  }

  lemma {:induction false} ClosedKeeps(s: Sys, ps: Option<map<Claim, Pend>>, launches: Launches)
    requires Inv(s, launches) && (ps.None? || ps == Some(map[]))
    ensures Inv(s.(indexer := ps), launches)
  {
    var t := s.(indexer := ps);
    forall i | i in t.calls ensures CallOk(t, t.calls[i], launches) { assert CallOk(s, s.calls[i], launches); }
    assert LegacyHarmless(t, launches);
  }

  // ---------------------------------------------------------------- every interleaving

  /** The launch transaction's own statements. */
  predicate OfIndexer(step: Step) {
    step.Begin? || step.Upsert? || step.LockClaim? || step.Reconcile? || step.Fail? || step.CommitApply?
    || step.AbortApply?
  }

  lemma {:induction false} IndexerKeeps(s: Sys, step: Step, launches: Launches)
    requires Inv(s, launches) && Next(s, step, launches).Some? && OfIndexer(step)
    ensures Inv(Next(s, step, launches).value, launches)
  {
    match step {
      case Begin => ClosedKeeps(s, Some(map[]), launches);
      case Upsert(c) => UpsertKeeps(s, c, launches);
      case LockClaim(c) => LockClaimKeeps(s, c, launches);
      case Reconcile(c) => ReconcileKeeps(s, c, launches);
      case Fail(c) => FailKeeps(s, c, launches);
      case CommitApply => CommitApplyKeeps(s, launches);
      case AbortApply => ClosedKeeps(s, None, launches);
    }
  }

  lemma {:induction false} NextKeeps(s: Sys, step: Step, launches: Launches)
    requires Inv(s, launches) && Next(s, step, launches).Some?
    ensures Inv(Next(s, step, launches).value, launches)
  {
    if OfIndexer(step) {
      IndexerKeeps(s, step, launches);
      return;
    }
    match step {
      case Save(d, draft) => SaveKeeps(s, d, draft, launches);
      case Enter(i, d, c, a) => EnterKeeps(s, i, d, c, a, launches);
      case TakeDraft(i) => TakeDraftKeeps(s, i, launches);
      case TakeClaim(i) => TakeClaimKeeps(s, i, launches);
      case Link(i) => WriteCreatorKeeps(s, i, launches);
      case Sign(i) => WriteCreatorKeeps(s, i, launches);
      case Read(i) => ReadKeeps(s, i, launches);
      case Update(i) => UpdateKeeps(s, i, launches);
      case Commit(i) => if s.calls[i].pc.Committing? { CommittingKeeps(s, i, launches); }
        else { UpdatedKeeps(s, i, launches); }
      case Abort(i) => GoneKeeps(s, i, launches);
      case Rewind(cs) => RewindKeeps(s, cs, launches);
    }
  }

  lemma {:induction false} RunKeeps(s: Sys, steps: seq<Step>, launches: Launches)
    requires Inv(s, launches)
    ensures Inv(Run(s, steps, launches), launches)
    decreases |steps|
  {
    if steps != [] {
      RunKeeps(s, steps[..|steps| - 1], launches);
      var before := Run(s, steps[..|steps| - 1], launches);
      if Next(before, steps[|steps| - 1], launches).Some? { NextKeeps(before, steps[|steps| - 1], launches); }
    }
  }

  // ---------------------------------------------------------------- nobody else's metadata

  /** Without legacy links, everything shown or about to be was linked by the launch's creator. */
  ghost predicate Sourcing(s: Sys, launches: Launches) {
    NoLegacy(s) && CreatorOnly(s, launches)
    && (s.indexer.Some? ==> forall c | c in s.indexer.value && s.indexer.value[c].row.presentation.Some? ::
          Sourced(s, c, s.indexer.value[c].row.presentation.value, launches))
  }

  /** Links are never taken back, so a source stays a source. */
  lemma {:induction false} SourcesGrow(s: Sys, t: Sys, launches: Launches)
    requires forall d, c | d in s.drafts && Matches(s.drafts[d], c, launches) ::
      d in t.drafts && Matches(t.drafts[d], c, launches) && t.drafts[d].presentation == s.drafts[d].presentation
    ensures forall c, p | Sourced(s, c, p, launches) :: Sourced(t, c, p, launches)
  {
  }

  lemma {:induction false} CommitSources(s: Sys, i: nat, launches: Launches)
    requires Inv(s, launches) && Sourcing(s, launches) && i in s.calls && CommitStep(s, i).Some?
    ensures Sourcing(CommitStep(s, i).value, launches)
  {
    var f, t := s.calls[i], CommitStep(s, i).value;
    assert CallOk(s, f, launches);
    SourcesGrow(s, t, launches);
    if f.pc.Updated? {
      assert Matches(t.drafts[f.draft], f.claim, launches);
      assert Sourced(t, f.claim, t.drafts[f.draft].presentation, launches);
    }
  }

  lemma {:induction false} ReconcileSources(s: Sys, c: Claim, launches: Launches)
    requires Inv(s, launches) && Sourcing(s, launches) && ReconcileStep(s, c, launches).Some?
    ensures Sourcing(ReconcileStep(s, c, launches).value, launches)
  {
    var t := ReconcileStep(s, c, launches).value;
    SourcesGrow(s, t, launches);
    if d :| d in Candidates(s, c, launches) && TheCandidate(Candidates(s, c, launches)) == Some(d) {
      assert Sourced(t, c, s.drafts[d].presentation, launches);
    }
  }

  lemma {:induction false} CommitApplySources(s: Sys, launches: Launches)
    requires Inv(s, launches) && Sourcing(s, launches) && CommitApplyStep(s).Some?
    ensures Sourcing(CommitApplyStep(s).value, launches)
  {
    SourcesGrow(s, CommitApplyStep(s).value, launches);
  }

  /** A statement that writes no draft and no presentation. */
  ghost predicate Carries(s: Sys, t: Sys) {
    t.drafts == s.drafts && (forall c: Claim :: Shown(t, c) == Shown(s, c))
    && (t.indexer.Some? ==> forall c | c in t.indexer.value ::
          t.indexer.value[c].row.presentation == Shown(s, c)
          || (IndexerWrote(s, c) && t.indexer.value[c].row.presentation == s.indexer.value[c].row.presentation))
  }

  lemma {:induction false} CarriedSources(s: Sys, t: Sys, launches: Launches)
    requires Sourcing(s, launches) && Carries(s, t)
    ensures Sourcing(t, launches)
  {
    SourcesGrow(s, t, launches);
    forall c | c in t.tokens && t.tokens[c].presentation.Some?
      ensures Sourced(t, c, t.tokens[c].presentation.value, launches)
    {
      assert Shown(t, c) == Shown(s, c);
    }
  }

  lemma {:induction false} CallsCarry(s: Sys, step: Step, launches: Launches)
    requires Next(s, step, launches).Some?
    requires step.Enter? || step.TakeDraft? || step.TakeClaim? || step.Link? || step.Sign? || step.Read? || step.Update?
      || step.Abort?
    ensures Carries(s, Next(s, step, launches).value)
  {
  }

  lemma {:induction false} IndexerCarries(s: Sys, step: Step, launches: Launches)
    requires Next(s, step, launches).Some?
    requires step.Begin? || step.Upsert? || step.LockClaim? || step.Fail? || step.AbortApply? || step.Rewind?
    ensures Carries(s, Next(s, step, launches).value)
  {
  }

  lemma {:induction false} SaveSources(s: Sys, d: DraftId, draft: Draft, launches: Launches)
    requires Sourcing(s, launches) && Next(s, Save(d, draft), launches).Some?
    ensures Sourcing(Next(s, Save(d, draft), launches).value, launches)
  {
    SourcesGrow(s, Next(s, Save(d, draft), launches).value, launches);
  }

  lemma {:induction false} NextSources(s: Sys, step: Step, launches: Launches)
    requires Inv(s, launches) && Sourcing(s, launches) && Next(s, step, launches).Some?
    ensures Sourcing(Next(s, step, launches).value, launches)
  {
    var t := Next(s, step, launches).value;
    match step {
      case Save(d, draft) => SaveSources(s, d, draft, launches);
      case Commit(i) => CommitSources(s, i, launches);
      case Reconcile(c) => ReconcileSources(s, c, launches);
      case CommitApply => CommitApplySources(s, launches);
      case Begin | Upsert(_) | LockClaim(_) | Fail(_) | AbortApply | Rewind(_) =>
        IndexerCarries(s, step, launches);
        CarriedSources(s, t, launches);
      case _ =>
        CallsCarry(s, step, launches);
        CarriedSources(s, t, launches);
    }
  }

  lemma {:induction false} RunSources(s: Sys, steps: seq<Step>, launches: Launches)
    requires Inv(s, launches) && Sourcing(s, launches)
    ensures Sourcing(Run(s, steps, launches), launches)
    decreases |steps|
  {
    if steps != [] {
      RunSources(s, steps[..|steps| - 1], launches);
      RunKeeps(s, steps[..|steps| - 1], launches);
      var before := Run(s, steps[..|steps| - 1], launches);
      if Next(before, steps[|steps| - 1], launches).Some? { NextSources(before, steps[|steps| - 1], launches); }
    }
  }

  // ---------------------------------------------------------------- in fields

  /** The draft was linked to this launch by its creator, and name, symbol and supply are the launch's. */
  ghost predicate Describes(s: Sys, d: DraftId, c: Claim, launches: Launches) {
    d in s.drafts && s.drafts[d].link == Some(c) && s.drafts[d].creator == Some(launches(c).creator)
    && s.drafts[d].name == launches(c).name && s.drafts[d].symbol == launches(c).symbol
    && s.drafts[d].supply == launches(c).supply
  }

  /** Whatever a token shows is the presentation of such a draft. */
  ghost predicate ShownDescribes(s: Sys, launches: Launches) {
    forall c | c in s.tokens && s.tokens[c].presentation.Some? ::
      DescribedBy(s, c, s.tokens[c].presentation.value, launches)
  }

  ghost predicate DescribedBy(s: Sys, c: Claim, p: Presentation, launches: Launches) {
    exists d :: Describes(s, d, c, launches) && s.drafts[d].presentation == p
  }

  /** From any database at rest without legacy links where this holds, it holds after every run. */
  lemma {:induction false} ShownByItsDraft(s: Sys, steps: seq<Step>, launches: Launches)
    requires AtRest(s) && NoLegacy(s) && HandedOver(s, launches) && ShownDescribes(s, launches)
    ensures ShownDescribes(Run(s, steps, launches), launches)
  {
    forall c | c in s.tokens && s.tokens[c].presentation.Some?
      ensures Sourced(s, c, s.tokens[c].presentation.value, launches)
    {
      assert DescribedBy(s, c, s.tokens[c].presentation.value, launches);
      var d :| Describes(s, d, c, launches) && s.drafts[d].presentation == s.tokens[c].presentation.value;
      assert Matches(s.drafts[d], c, launches);
    }
    RunSources(s, steps, launches);
    var t := Run(s, steps, launches);
    forall c | c in t.tokens && t.tokens[c].presentation.Some?
      ensures DescribedBy(t, c, t.tokens[c].presentation.value, launches)
    {
      assert Sourced(t, c, t.tokens[c].presentation.value, launches);
      var d :| d in t.drafts && Matches(t.drafts[d], c, launches)
        && t.drafts[d].presentation == t.tokens[c].presentation.value;
      assert Describes(t, d, c, launches);
    }
  }

  /** Every canonical, reconciled launch shows such a draft's presentation. */
  ghost predicate ShowsItsDraft(s: Sys, launches: Launches) {
    forall c, d | CanonicalToken(s, c) && c !in s.failed && Describes(s, d, c, launches) ::
      s.tokens[c].presentation == Some(s.drafts[d].presentation)
  }

  /** In every interleaving of launches, rewinds and FinalizeMetadata calls from an empty database,
      a canonical launch whose last reconciliation did not fail carries its creator's draft, at most
      one draft is linked per (token, transaction, creator), and no one else's metadata is ever shown. */
  lemma {:induction false} MetadataHandOver(steps: seq<Step>, launches: Launches)
    ensures var s := Run(EMPTY_SYS, steps, launches);
      ShowsItsDraft(s, launches) && OneClaim(s) && ShownDescribes(s, launches)
  {
    RunKeeps(EMPTY_SYS, steps, launches);
    var s := Run(EMPTY_SYS, steps, launches);
    forall c, d | CanonicalToken(s, c) && c !in s.failed && Describes(s, d, c, launches)
      ensures s.tokens[c].presentation == Some(s.drafts[d].presentation)
    {
      assert Matches(s.drafts[d], c, launches);
    }
    ShownByItsDraft(EMPTY_SYS, steps, launches);
  }

  predicate ByCall(step: Step) {
    step.Enter? || step.TakeDraft? || step.TakeClaim? || step.Link? || step.Sign? || step.Read? || step.Update?
    || step.Commit? || step.Abort?
  }

  /** The call's creator is the launch's, and so are its draft's name, symbol and supply. */
  ghost predicate Agrees(s: Sys, i: nat, launches: Launches) {
    i in s.calls && s.calls[i].draft in s.drafts
    && var d, l := s.drafts[s.calls[i].draft], launches(s.calls[i].claim);
      s.calls[i].creator == l.creator && d.name == l.name && d.symbol == l.symbol && d.supply == l.supply
  }

  /** The call's own draft has been written to its one canonical token, and to no other. */
  ghost predicate WroteItsDraft(before: Sys, i: nat, after: Sys, launches: Launches) {
    Agrees(before, i, launches) && CanonicalToken(before, before.calls[i].claim)
    && var f := before.calls[i];
      after.tokens == before.tokens[f.claim := before.tokens[f.claim].(
        presentation := Some(before.drafts[f.draft].presentation))]
  }

  lemma {:induction false} CommitWritesAgreeing(s: Sys, i: nat, launches: Launches)
    requires CallsOk(s, launches) && RowLocks(s) && i in s.calls && CommitStep(s, i).Some?
    ensures var t := CommitStep(s, i).value; t.tokens == s.tokens || WroteItsDraft(s, i, t, launches)
  {
    assert CallOk(s, s.calls[i], launches);
  }

  lemma {:induction false} OthersWriteNothing(s: Sys, step: Step, launches: Launches)
    requires ByCall(step) && !step.Commit? && Next(s, step, launches).Some?
    ensures Next(s, step, launches).value.tokens == s.tokens
  {
  }

  /** In any run from a database at rest, a statement of a FinalizeMetadata call leaves every token alone,
      unless it commits a call that agrees with its launch in all four fields; then it writes the draft's
      presentation to that one canonical token. */
  lemma {:induction false} CallsWriteOnlyAgreeing(s: Sys, steps: seq<Step>, step: Step, launches: Launches)
    requires AtRest(s) && LegacyHarmless(s, launches) && HandedOver(s, launches) && ByCall(step)
    requires Next(Run(s, steps, launches), step, launches).Some?
    ensures var before := Run(s, steps, launches);
      var after := Next(before, step, launches).value;
      after.tokens == before.tokens || (step.Commit? && WroteItsDraft(before, step.call, after, launches))
  {
    assert Inv(s, launches);
    RunKeeps(s, steps, launches);
    var before := Run(s, steps, launches);
    if step.Commit? { CommitWritesAgreeing(before, step.call, launches); }
    else { OthersWriteNothing(before, step, launches); }
  }

  /** Once the token is indexed, a call that disagrees in any field ends without a write. */
  lemma {:induction false} MismatchRefused(s: Sys, i: nat, launches: Launches)
    requires i in s.calls && s.calls[i].pc.Reading? && s.calls[i].draft in s.drafts
    requires CanonicalToken(s, s.calls[i].claim)
    ensures ReadStep(s, i, launches) == Some(if Agrees(s, i, launches) then WithPc(s, i, Updating) else Gone(s, i))
  {
  }

  /** Reconciliation writes a presentation exactly when one draft describes the launch, and then its own. */
  lemma {:induction false} ReconcilesTheOne(s: Sys, c: Claim, launches: Launches)
    requires ReconcileStep(s, c, launches).Some?
    ensures var p := ReconcileStep(s, c, launches).value.indexer.value[c];
      (p.row == s.indexer.value[c].row && p.stage == Reconciled(None))
      || exists d :: Alone(s, d, c, launches) && p.stage == Reconciled(Some(d))
                     && p.row == s.indexer.value[c].row.(presentation := Some(s.drafts[d].presentation))
    ensures (exists d :: Alone(s, d, c, launches)) ==>
      ReconcileStep(s, c, launches).value.indexer.value[c].stage != Reconciled(None)
  {
    var ds := Candidates(s, c, launches);
    forall d ensures d in ds <==> Describes(s, d, c, launches) {}
    if d: DraftId :| Alone(s, d, c, launches) {
      assert ds == {d};
      assert |ds| == 1;
    }
    if TheCandidate(ds).Some? {
      assert TheCandidate(ds).value in ds;
      assert Alone(s, TheCandidate(ds).value, c, launches);
    }
  }

  ghost predicate Alone(s: Sys, d: DraftId, c: Claim, launches: Launches) {
    Describes(s, d, c, launches) && forall e | Describes(s, e, c, launches) :: e == d
  }

  // ---------------------------------------------------------------- legacy links

  /** A database between transactions, as its constraints allow it. */
  ghost predicate AtRest(s: Sys) {
    s.calls == map[] && s.indexer.None? && WellFormed(s) && OneClaim(s)
  }

  lemma {:induction false} RunStep(s: Sys, steps: seq<Step>, step: Step, t: Sys, launches: Launches)
    requires Next(Run(s, steps, launches), step, launches) == Some(t)
    ensures Run(s, steps + [step], launches) == t
  {
    assert (steps + [step])[..|steps|] == steps;
  }

  /** After a rewind of the launch, its creator's call signs the old link without the claim lock
      while the launch is indexed again. */
  function LegacyRun(d: DraftId, c: Claim, creator: Address): seq<Step> {
    [Rewind({c})] + [Enter(0, d, c, creator)] + [TakeDraft(0)] + [Sign(0)] + [Read(0)]
    + [Begin] + [Upsert(c)] + [LockClaim(c)] + [Reconcile(c)] + [CommitApply] + [Commit(0)]
  }

  function LegacyCall(s: Sys, d: DraftId, c: Claim, launches: Launches, pc: Pc): Sys {
    s.(calls := map[0 := Call(d, c, launches(c).creator, pc, !pc.Entered?, false)])
  }

  lemma {:induction false} LegacyCallReads(s: Sys, before: seq<Step>, t: Sys, d: DraftId, c: Claim, launches: Launches)
    requires Run(s, before, launches) == t && t.calls == map[] && t.indexer.None?
    requires d in t.drafts && Legacy(t.drafts[d], c, launches) && !Claimed(t, d, c, launches(c).creator)
      && !CanonicalToken(t, c)
    ensures var a := launches(c).creator;
      Run(s, before + [Enter(0, d, c, a)] + [TakeDraft(0)] + [Sign(0)] + [Read(0)], launches)
        == LegacyCall(t, d, c, launches, Committing)
  {
    var a := launches(c).creator;
    RunStep(s, before, Enter(0, d, c, a), LegacyCall(t, d, c, launches, Entered), launches);
    LegacyCallSteps(t, d, c, launches);
    RunStep(s, before + [Enter(0, d, c, a)], TakeDraft(0), LegacyCall(t, d, c, launches, Signing), launches);
    RunStep(s, before + [Enter(0, d, c, a)] + [TakeDraft(0)], Sign(0),
            LegacyCall(t, d, c, launches, Reading), launches);
    RunStep(s, before + [Enter(0, d, c, a)] + [TakeDraft(0)] + [Sign(0)], Read(0),
            LegacyCall(t, d, c, launches, Committing), launches);
  }

  lemma {:induction false} LegacyCallSteps(t: Sys, d: DraftId, c: Claim, launches: Launches)
    requires t.calls == map[] && t.indexer.None?
    requires d in t.drafts && Legacy(t.drafts[d], c, launches) && !Claimed(t, d, c, launches(c).creator)
      && !CanonicalToken(t, c)
    ensures TakeDraftStep(LegacyCall(t, d, c, launches, Entered), 0) == Some(LegacyCall(t, d, c, launches, Signing))
    ensures SignStep(LegacyCall(t, d, c, launches, Signing), 0) == Some(LegacyCall(t, d, c, launches, Reading))
    ensures ReadStep(LegacyCall(t, d, c, launches, Reading), 0, launches)
      == Some(LegacyCall(t, d, c, launches, Committing))
  {
    var e, g, r := LegacyCall(t, d, c, launches, Entered), LegacyCall(t, d, c, launches, Signing),
      LegacyCall(t, d, c, launches, Reading);
    assert e.calls[0 := e.calls[0].(pc := Signing, links := true)] == g.calls;
    assert g.calls[0 := g.calls[0].(pc := Reading)] == r.calls;
    assert r.calls[0 := r.calls[0].(pc := Committing)] == LegacyCall(t, d, c, launches, Committing).calls;
    assert Claimed(g, d, c, launches(c).creator) == Claimed(t, d, c, launches(c).creator);
  }

  /** The open launch transaction holding one pending row. */
  function Opened(t: Sys, c: Claim, stage: Stage): Sys {
    t.(indexer := Some(map[c := Pend(TokenRow(true, Shown(t, c)), stage)]))
  }

  lemma {:induction false} LegacyLaunchOpens(s: Sys, before: seq<Step>, t: Sys, c: Claim, launches: Launches)
    requires Run(s, before, launches) == t && t.indexer.None?
    requires NoCallUpdated(t, c) && NoCallLocks(t, c)
    ensures Run(s, before + [Begin] + [Upsert(c)] + [LockClaim(c)], launches) == Opened(t, c, Holding)
  {
    RunStep(s, before, Begin, t.(indexer := Some(map[])), launches);
    RunStep(s, before + [Begin], Upsert(c), Opened(t, c, Upserted), launches);
    assert Opened(t, c, Holding).indexer.value
      == Opened(t, c, Upserted).indexer.value[c := Pend(TokenRow(true, Shown(t, c)), Holding)];
    RunStep(s, before + [Begin] + [Upsert(c)], LockClaim(c), Opened(t, c, Holding), launches);
  }

  lemma {:induction false} LegacyLaunchReconciles(s: Sys, before: seq<Step>, t: Sys, c: Claim, launches: Launches)
    requires Run(s, before, launches) == Opened(t, c, Holding) && Candidates(t, c, launches) == {}
    ensures Run(s, before + [Reconcile(c)], launches) == Opened(t, c, Reconciled(None))
  {
    var t3, t4 := Opened(t, c, Holding), Opened(t, c, Reconciled(None));
    assert Candidates(t3, c, launches) == {};
    assert t4.indexer.value == t3.indexer.value[c := Pend(TokenRow(true, Shown(t, c)), Reconciled(None))];
    RunStep(s, before, Reconcile(c), t4, launches);
  }

  lemma {:induction false} LegacyLaunchCommits(s: Sys, before: seq<Step>, t: Sys, c: Claim, launches: Launches)
    returns (u: Sys)
    requires Run(s, before, launches) == Opened(t, c, Reconciled(None))
    ensures Run(s, before + [CommitApply], launches) == u
    ensures u.calls == t.calls && u.drafts == t.drafts
    ensures CanonicalToken(u, c) && Shown(u, c) == Shown(t, c) && c !in u.failed
  {
    var t4 := Opened(t, c, Reconciled(None));
    u := CommitApplyStep(t4).value;
    assert forall d :: !Finalizes(t4.indexer.value, d);
    assert u.drafts == t.drafts;
    RunStep(s, before, CommitApply, u, launches);
  }

  /** A legacy link that the token does not show and that no link of the creator rivals can be lost:
      one interleaving leaves the canonical token without the metadata its creator linked. */
  lemma {:induction false} LegacyBreaks(s: Sys, d: DraftId, c: Claim, launches: Launches)
    requires s.calls == map[] && s.indexer.None?
    requires d in s.drafts && Legacy(s.drafts[d], c, launches) && !Harmless(s, d, c, launches)
    ensures !HandedOver(Run(s, LegacyRun(d, c, launches(c).creator), launches), launches)
  {
    var a := launches(c).creator;
    var t := RewindStep(s, {c}).value;
    assert Run(s, [], launches) == s;
    RunStep(s, [], Rewind({c}), t, launches);
    assert [] + [Rewind({c})] == [Rewind({c})];
    assert Claimed(t, d, c, a) == Claimed(s, d, c, a) && Shown(t, c) == Shown(s, c);
    LegacyCallReads(s, [Rewind({c})], t, d, c, launches);
    var first := [Rewind({c})] + [Enter(0, d, c, a)] + [TakeDraft(0)] + [Sign(0)] + [Read(0)];
    LegacyRace(s, first, LegacyCall(t, d, c, launches, Committing), d, c, launches);
  }

  lemma {:induction false} LegacyRace(s: Sys, first: seq<Step>, t: Sys, d: DraftId, c: Claim, launches: Launches)
    requires Run(s, first, launches) == t && t.indexer.None? && d in t.drafts && Legacy(t.drafts[d], c, launches)
    requires t.calls == map[0 := Call(d, c, launches(c).creator, Committing, true, false)]
    requires !Claimed(t, d, c, launches(c).creator) && Shown(t, c) != Some(t.drafts[d].presentation)
    ensures !HandedOver(Run(s, first + [Begin] + [Upsert(c)] + [LockClaim(c)] + [Reconcile(c)] + [CommitApply]
      + [Commit(0)], launches), launches)
  {
    LegacyLaunchOpens(s, first, t, c, launches);
    assert Candidates(t, c, launches) == {} by {
      forall e | e in t.drafts && Matches(t.drafts[e], c, launches) ensures false {
        assert Claimed(t, d, c, launches(c).creator);
      }
    }
    var launched := first + [Begin] + [Upsert(c)] + [LockClaim(c)];
    LegacyLaunchReconciles(s, launched, t, c, launches);
    var u := LegacyLaunchCommits(s, launched + [Reconcile(c)], t, c, launches);
    var v := CommitStep(u, 0).value;
    RunStep(s, launched + [Reconcile(c)] + [CommitApply], Commit(0), v, launches);
    assert Matches(v.drafts[d], c, launches) && CanonicalToken(v, c) && c !in v.failed;
    assert v.tokens[c].presentation == Shown(u, c);
  }

  /** From a database at rest the promise holds in every run exactly when it holds now and every link
      without a creator is shown already or rivalled by a link of the launch's creator. */
  lemma {:induction false} HandOverIff(s: Sys, launches: Launches)
    requires AtRest(s)
    ensures (forall steps :: HandedOver(Run(s, steps, launches), launches)) <==>
      HandedOver(s, launches) && LegacyHarmless(s, launches)
  {
    if HandedOver(s, launches) && LegacyHarmless(s, launches) {
      forall steps ensures HandedOver(Run(s, steps, launches), launches) { RunKeeps(s, steps, launches); }
    } else if !HandedOver(s, launches) {
      assert Run(s, [], launches) == s;
    } else {
      var d, c :| d in s.drafts && Legacy(s.drafts[d], c, launches) && !Harmless(s, d, c, launches);
      LegacyBreaks(s, d, c, launches);
    }
  }

  // ---------------------------------------------------------------- undisturbed transactions

  /** A fresh draft that is the creator's and describes the launch. */
  ghost predicate Fits(s: Sys, d: DraftId, c: Claim, launches: Launches) {
    d in s.drafts && s.drafts[d].link.None? && s.drafts[d].creator.None? && !s.drafts[d].finalized
    && s.drafts[d].name == launches(c).name && s.drafts[d].symbol == launches(c).symbol
    && s.drafts[d].supply == launches(c).supply
  }

  function CallAt(s: Sys, d: DraftId, c: Claim, launches: Launches, pc: Pc, links: bool, locked: bool): Sys {
    s.(calls := map[0 := Call(d, c, launches(c).creator, pc, links, locked)])
  }

  function LinkingRun(d: DraftId, c: Claim, creator: Address): seq<Step> {
    [Enter(0, d, c, creator)] + [TakeDraft(0)] + [TakeClaim(0)] + [Link(0)] + [Read(0)]
  }

  lemma {:induction false} LinkingReads(s: Sys, d: DraftId, c: Claim, launches: Launches)
    requires AtRest(s) && Fits(s, d, c, launches) && !Claimed(s, d, c, launches(c).creator)
    ensures Run(s, LinkingRun(d, c, launches(c).creator), launches)
      == CallAt(s, d, c, launches, if CanonicalToken(s, c) then Updating else Committing, true, true)
  {
    var a := launches(c).creator;
    assert Run(s, [], launches) == s;
    LinkingSteps(s, d, c, launches);
    RunStep(s, [], Enter(0, d, c, a), CallAt(s, d, c, launches, Entered, false, false), launches);
    assert [] + [Enter(0, d, c, a)] == [Enter(0, d, c, a)];
    RunStep(s, [Enter(0, d, c, a)], TakeDraft(0), CallAt(s, d, c, launches, Waiting, true, false), launches);
    RunStep(s, [Enter(0, d, c, a)] + [TakeDraft(0)], TakeClaim(0),
            CallAt(s, d, c, launches, Locked, true, true), launches);
    RunStep(s, [Enter(0, d, c, a)] + [TakeDraft(0)] + [TakeClaim(0)], Link(0),
            CallAt(s, d, c, launches, Reading, true, true), launches);
    RunStep(s, [Enter(0, d, c, a)] + [TakeDraft(0)] + [TakeClaim(0)] + [Link(0)], Read(0),
            CallAt(s, d, c, launches, if CanonicalToken(s, c) then Updating else Committing, true, true), launches);
  }

  lemma {:induction false} LinkingSteps(s: Sys, d: DraftId, c: Claim, launches: Launches)
    requires AtRest(s) && Fits(s, d, c, launches) && !Claimed(s, d, c, launches(c).creator)
    ensures Next(s, Enter(0, d, c, launches(c).creator), launches)
      == Some(CallAt(s, d, c, launches, Entered, false, false))
    ensures TakeDraftStep(CallAt(s, d, c, launches, Entered, false, false), 0)
      == Some(CallAt(s, d, c, launches, Waiting, true, false))
    ensures TakeClaimStep(CallAt(s, d, c, launches, Waiting, true, false), 0)
      == Some(CallAt(s, d, c, launches, Locked, true, true))
    ensures LinkStep(CallAt(s, d, c, launches, Locked, true, true), 0)
      == Some(CallAt(s, d, c, launches, Reading, true, true))
    ensures ReadStep(CallAt(s, d, c, launches, Reading, true, true), 0, launches)
      == Some(CallAt(s, d, c, launches, if CanonicalToken(s, c) then Updating else Committing, true, true))
  {
    var e, w, l, r := CallAt(s, d, c, launches, Entered, false, false), CallAt(s, d, c, launches, Waiting, true, false),
      CallAt(s, d, c, launches, Locked, true, true), CallAt(s, d, c, launches, Reading, true, true);
    assert e.calls[0 := e.calls[0].(pc := Waiting, links := true)] == w.calls;
    assert w.calls[0 := w.calls[0].(pc := Locked, locked := true)] == l.calls;
    assert l.calls[0 := l.calls[0].(pc := Reading)] == r.calls;
    assert r.calls[0 := r.calls[0].(pc := Committing)] == CallAt(s, d, c, launches, Committing, true, true).calls;
    assert r.calls[0 := r.calls[0].(pc := Updating)] == CallAt(s, d, c, launches, Updating, true, true).calls;
    assert Claimed(l, d, c, launches(c).creator) == Claimed(s, d, c, launches(c).creator);
  }

  /** Undisturbed, the creator's call links its draft; if the launch is indexed, the token shows the draft
      and both are marked done, and otherwise nothing else changes. */
  lemma {:induction false} CallAlone(s: Sys, d: DraftId, c: Claim, launches: Launches)
    requires AtRest(s) && Fits(s, d, c, launches) && !Claimed(s, d, c, launches(c).creator)
    ensures var linked := s.drafts[d].(link := Some(c), creator := Some(launches(c).creator));
      var run := LinkingRun(d, c, launches(c).creator);
      if CanonicalToken(s, c) then
        Run(s, run + [Update(0)] + [Commit(0)], launches) == s.(
          drafts := s.drafts[d := linked.(finalized := true)],
          tokens := s.tokens[c := s.tokens[c].(presentation := Some(s.drafts[d].presentation))],
          failed := s.failed - {c})
      else Run(s, run + [Commit(0)], launches) == s.(drafts := s.drafts[d := linked])
  {
    LinkingReads(s, d, c, launches);
    var run := LinkingRun(d, c, launches(c).creator);
    if CanonicalToken(s, c) {
      UpdatingFinishes(s, d, c, launches);
      var v := CallAt(s, d, c, launches, Updated, true, true);
      RunStep(s, run, Update(0), v, launches);
      RunStep(s, run + [Update(0)], Commit(0), CommitStep(v, 0).value, launches);
    } else {
      var v := CallAt(s, d, c, launches, Committing, true, true);
      assert v.calls - {0} == map[];
      RunStep(s, run, Commit(0), CommitStep(v, 0).value, launches);
    }
  }

  lemma {:induction false} UpdatingFinishes(s: Sys, d: DraftId, c: Claim, launches: Launches)
    requires AtRest(s) && d in s.drafts && CanonicalToken(s, c)
    ensures UpdateStep(CallAt(s, d, c, launches, Updating, true, true), 0)
      == Some(CallAt(s, d, c, launches, Updated, true, true))
    ensures CommitStep(CallAt(s, d, c, launches, Updated, true, true), 0) == Some(s.(
      drafts := s.drafts[d := s.drafts[d].(link := Some(c), creator := Some(launches(c).creator), finalized := true)],
      tokens := s.tokens[c := s.tokens[c].(presentation := Some(s.drafts[d].presentation))],
      failed := s.failed - {c}))
  {
    var u, v := CallAt(s, d, c, launches, Updating, true, true), CallAt(s, d, c, launches, Updated, true, true);
    assert u.calls[0 := u.calls[0].(pc := Updated)] == v.calls;
    assert v.calls - {0} == map[];
  }

  /** Undisturbed, indexing a launch whose creator has linked a draft shows that draft and marks it done. */
  lemma {:induction false} LaunchAlone(s: Sys, d: DraftId, c: Claim, launches: Launches)
    requires AtRest(s) && Describes(s, d, c, launches)
    ensures Run(s, [Begin] + [Upsert(c)] + [LockClaim(c)] + [Reconcile(c)] + [CommitApply], launches) == s.(
      tokens := s.tokens[c := TokenRow(true, Some(s.drafts[d].presentation))],
      drafts := s.drafts[d := s.drafts[d].(finalized := true)],
      failed := s.failed - {c})
  {
    assert Run(s, [], launches) == s;
    LegacyLaunchOpens(s, [], s, c, launches);
    assert [] + [Begin] == [Begin];
    LaunchCloses(s, [Begin] + [Upsert(c)] + [LockClaim(c)], s, d, c, launches);
  }

  lemma {:induction false} LaunchCloses(s: Sys, before: seq<Step>, t: Sys, d: DraftId, c: Claim, launches: Launches)
    requires Run(s, before, launches) == Opened(t, c, Holding) && AtRest(t) && Describes(t, d, c, launches)
    ensures Run(s, before + [Reconcile(c)] + [CommitApply], launches) == t.(
      tokens := t.tokens[c := TokenRow(true, Some(t.drafts[d].presentation))],
      drafts := t.drafts[d := t.drafts[d].(finalized := true)],
      failed := t.failed - {c})
  {
    var r := t.(indexer := Some(map[c := Pend(TokenRow(true, Some(t.drafts[d].presentation)), Reconciled(Some(d)))]));
    LaunchReconciles(t, d, c, launches);
    RunStep(s, before, Reconcile(c), r, launches);
    LaunchCommits(t, r, d, c, launches);
    RunStep(s, before + [Reconcile(c)], CommitApply, CommitApplyStep(r).value, launches);
  }

  lemma {:induction false} LaunchReconciles(t: Sys, d: DraftId, c: Claim, launches: Launches)
    requires AtRest(t) && Describes(t, d, c, launches)
    ensures ReconcileStep(Opened(t, c, Holding), c, launches)
      == Some(t.(indexer := Some(map[c := Pend(TokenRow(true, Some(t.drafts[d].presentation)), Reconciled(Some(d)))])))
  {
    var h, row := Opened(t, c, Holding), TokenRow(true, Some(t.drafts[d].presentation));
    assert Candidates(h, c, launches) == {d} by {
      assert Matches(h.drafts[d], c, launches);
      assert forall e | e in h.drafts && Matches(h.drafts[e], c, launches) :: e == d;
    }
    assert h.indexer.value[c := Pend(row, Reconciled(Some(d)))] == map[c := Pend(row, Reconciled(Some(d)))];
  }

  lemma {:induction false} LaunchCommits(s: Sys, r: Sys, d: DraftId, c: Claim, launches: Launches)
    requires d in s.drafts && s.indexer.None?
    requires r == s.(
      indexer := Some(map[c := Pend(TokenRow(true, Some(s.drafts[d].presentation)), Reconciled(Some(d)))]))
    ensures CommitApplyStep(r) == Some(s.(
      tokens := s.tokens[c := TokenRow(true, Some(s.drafts[d].presentation))],
      drafts := s.drafts[d := s.drafts[d].(finalized := true)],
      failed := s.failed - {c}))
  {
    var ps := r.indexer.value;
    assert Finalizes(ps, d) by { assert ps[c].stage == Reconciled(Some(d)); }
    assert forall e | Finalizes(ps, e) :: e == d;
    var t := CommitApplyStep(r).value;
    assert t.tokens == s.tokens[c := TokenRow(true, Some(s.drafts[d].presentation))];
    assert t.drafts == s.drafts[d := s.drafts[d].(finalized := true)];
    assert t.failed == s.failed - {c};
  }

  predicate Fails(s: Sys, c: Claim) {
    c in s.failed || (IndexerWrote(s, c) && s.indexer.value[c].stage.Unreconciled?)
  }

  lemma {:induction false} CallsNeverFail(s: Sys, step: Step, c: Claim, launches: Launches)
    requires Next(s, step, launches).Some? && !OfIndexer(step) && !step.Commit?
    ensures Fails(Next(s, step, launches).value, c) == Fails(s, c)
  {
  }

  lemma {:induction false} CommitNeverFails(s: Sys, i: nat, c: Claim, launches: Launches)
    requires i in s.calls && CommitStep(s, i).Some?
    ensures Fails(CommitStep(s, i).value, c) ==> Fails(s, c)
  {
  }

  lemma {:induction false} OnlyFailFails(s: Sys, step: Step, c: Claim, launches: Launches)
    requires Next(s, step, launches).Some? && OfIndexer(step) && step != Fail(c)
    ensures Fails(Next(s, step, launches).value, c) ==> Fails(s, c)
  {
  }

  /** A launch is recorded as failed only after its savepoint failed. */
  lemma {:induction false} FailedFailed(steps: seq<Step>, c: Claim, launches: Launches)
    ensures Fails(Run(EMPTY_SYS, steps, launches), c) ==> Fail(c) in steps
    decreases |steps|
  {
    if steps != [] {
      FailedFailed(steps[..|steps| - 1], c, launches);
      var before, step := Run(EMPTY_SYS, steps[..|steps| - 1], launches), steps[|steps| - 1];
      if step != Fail(c) && Next(before, step, launches).Some? { FailsOnce(before, step, c, launches); }
      assert forall step | step in steps[..|steps| - 1] :: step in steps;
    }
  }

  lemma {:induction false} FailsOnce(s: Sys, step: Step, c: Claim, launches: Launches)
    requires Next(s, step, launches).Some? && step != Fail(c)
    ensures Fails(Next(s, step, launches).value, c) ==> Fails(s, c)
  {
    if OfIndexer(step) { OnlyFailFails(s, step, c, launches); }
    else if step.Commit? { CommitNeverFails(s, step.call, c, launches); }
    else { CallsNeverFail(s, step, c, launches); }
  }
}
