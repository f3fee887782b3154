/** Safety over whole runs of the store: any interleaving of Apply and Rewind, failed transactions
    included, is indistinguishable from replaying the surviving blocks into an empty database. */
module Runs {
  import opened Wrappers
  import opened Chain
  import opened Tables
  import opened CtoProjection
  import opened Views
  import opened Store
  import opened Reorg

  datatype Step = ApplyStep(b: Block) | RewindStep(from: nat)

  /** The database and the blocks it is meant to index. */
  datatype Index = Index(state: State, survivors: seq<Block>)

  const FRESH := Index(EMPTY_STATE, [])

  /** One transaction: the new database, or an error and a rollback. */
  type Exec = (State, Step) -> Result<State, ApplyError>

  function StoreExec(cfg: Config): Exec {
    (s: State, step: Step) =>
      match step
      case ApplyStep(b) => Applied(s, b, cfg)
      case RewindStep(from) => Rewound(s, from, cfg)
  }

  function Surviving(chain: seq<Block>, step: Step): seq<Block> {
    match step
    case ApplyStep(b) => chain[..Cut(chain, b.header.number)] + [b]
    case RewindStep(from) => chain[..Cut(chain, from)]
  }

  function Do(x: Index, step: Step, exec: Exec): Index {
    match exec(x.state, step)
    case Err(_) => x
    case Ok(s) => Index(s, Surviving(x.survivors, step))
  }

  function Run(x: Index, steps: seq<Step>, exec: Exec): Index
    decreases |steps|
  {
    if steps == [] then x else Do(Run(x, steps[..|steps| - 1], exec), steps[|steps| - 1], exec)
  }

  /** Heights rise after each rewind (or replace the last height), hashes identify headers, and no
      two surviving blocks share a (transaction, log index). */
  ghost predicate LegalStep(x: Index, step: Step) {
    step.ApplyStep? ==> Extends(x.survivors, step.b)
  }

  ghost predicate LegalRun(x: Index, steps: seq<Step>, exec: Exec) {
    forall i | 0 <= i < |steps| :: LegalStep(Run(x, steps[..i], exec), steps[i])
  }

  /** The checkpoint covers every surviving block, and its hash is present exactly when it names
      the last of them. */
  ghost predicate CheckpointNames(s: State, chain: seq<Block>) {
    match s.checkpoint
    case None => chain == []
    case Some(c) =>
      (forall i | 0 <= i < |chain| :: chain[i].header.number <= c.block)
      && (c.hash.Some? ==> chain != [] && chain[|chain| - 1].header.number == c.block
                           && chain[|chain| - 1].header.hash == c.hash.value)
      && (c.hash.None? && c.block > 0 ==> forall i | 0 <= i < |chain| :: chain[i].header.number < c.block)
  }

  ghost predicate Faithful(x: Index, cfg: Config) {
    Indexes(x.state, x.survivors, cfg)
    && CheckpointNames(x.state, x.survivors)
    && (x.state == EMPTY_STATE || (DerivedFresh(x.state, cfg) && CtoRebuilt(x.state)))
  }

  /** The CTO tables are a rebuild, from some tables, of the canonical CTO events. */
  ghost predicate CtoRebuilt(s: State) {
    !Ambiguous(CtoHistory(Seen(s)))
    && exists t :: CtoFrom(s, t)
  }

  ghost predicate CtoFrom(s: State, t: CtoTables) {
    s.cto == Replay(Cleared(t), CtoHistory(Seen(s)), CtoHistory(Seen(s)))
  }

  ghost predicate DerivedFresh(s: State, cfg: Config) {
    SeenDerived(s) == DerivedOf(Seen(s), cfg)
  }

  lemma {:induction false} ColumnsRefilled(s: State, stale: map<LogKey, CurveColumns>,
                                           filled: map<LogKey, CurveColumns>)
    requires s.columns == stale + filled && filled.Keys == Canonical(s.curves).Keys
    ensures SeenDerived(s).columns == filled
  {
    assert forall k | k in s.curves :: s.curves[k].canonical <==> k in Canonical(s.curves);
    assert forall k | k in filled :: k in Canonical(s.curves);
  }

  lemma {:induction false} RebuildDerives(s: State, cfg: Config)
    requires Rebuild(s, cfg).Ok?
    ensures var t := Rebuild(s, cfg).value;
      DerivedFresh(t, cfg) && CtoRebuilt(t)
  {
    RebuildKeeps(s, cfg);
    var t := Rebuild(s, cfg).value;
    assert CtoFrom(t, s.cto);
    var d := DerivedOf(Seen(s), cfg);
    assert d.columns.Keys == Canonical(s.curves).Keys;
    ColumnsRefilled(t, s.columns, d.columns);
  }

  lemma {:induction false} DerivedIgnoresCheckpoint(s: State, c: Option<Checkpoint>, cfg: Config)
    requires DerivedFresh(s, cfg) && CtoRebuilt(s)
    ensures DerivedFresh(s.(checkpoint := c), cfg) && CtoRebuilt(s.(checkpoint := c))
  {
    CheckpointUnseen(s, c, cfg.roots);
    var t :| CtoFrom(s, t);
    assert CtoFrom(s.(checkpoint := c), t);
  }

  lemma {:induction false} AppliedDerives(s: State, b: Block, cfg: Config)
    requires Applied(s, b, cfg).Ok?
    ensures var t := Applied(s, b, cfg).value;
      DerivedFresh(t, cfg) && CtoRebuilt(t) && t.checkpoint == Some(Checkpoint(b.header.number, Some(b.header.hash)))
  {
    var inserted := LogsInserted(BlockOpened(s, b.header), b, |b.logs|, cfg).value;
    RebuildDerives(inserted, cfg);
    DerivedIgnoresCheckpoint(Rebuild(inserted, cfg).value, Some(Checkpoint(b.header.number, Some(b.header.hash))), cfg);
  }

  lemma {:induction false} RewoundDerives(s: State, from: nat, cfg: Config)
    requires Rewound(s, from, cfg).Ok?
    ensures var t := Rewound(s, from, cfg).value;
      DerivedFresh(t, cfg) && CtoRebuilt(t) && t.checkpoint.Some? == s.checkpoint.Some?
      && (t.checkpoint.Some? ==> t.checkpoint == RewoundCheckpoint(t, from))
  {
    var o := OrphanedFrom(s, from);
    RebuildDerives(o, cfg);
    var t := Rebuild(o, cfg).value;
    DerivedIgnoresCheckpoint(t, RewoundCheckpoint(t, from), cfg);
  }

  lemma {:induction false} AppliedNames(t: State, kept: seq<Block>, b: Block)
    requires t.checkpoint == Some(Checkpoint(b.header.number, Some(b.header.hash)))
    requires forall i | 0 <= i < |kept| :: kept[i].header.number < b.header.number
    ensures CheckpointNames(t, kept + [b])
  {
  }

  lemma {:induction false} FaithfulBy(t: State, chain: seq<Block>, cfg: Config)
    requires Indexes(t, chain, cfg) && CheckpointNames(t, chain) && DerivedFresh(t, cfg) && CtoRebuilt(t)
    ensures Faithful(Index(t, chain), cfg)
  {
  }

  lemma {:induction false} AppliedFaithful(x: Index, b: Block, cfg: Config)
    requires Faithful(x, cfg) && Extends(x.survivors, b) && Applied(x.state, b, cfg).Ok?
    ensures Faithful(Index(Applied(x.state, b, cfg).value, Surviving(x.survivors, ApplyStep(b))), cfg)
  {
    ApplyRefines(x.state, x.survivors, b, cfg);
    AppliedDerives(x.state, b, cfg);
    CutBelow(x.survivors, b.header.number);
    AppliedNames(Applied(x.state, b, cfg).value, x.survivors[..Cut(x.survivors, b.header.number)], b);
    FaithfulBy(Applied(x.state, b, cfg).value, Surviving(x.survivors, ApplyStep(b)), cfg);
  }

  lemma {:induction false} ApplyFaithful(x: Index, b: Block, cfg: Config)
    requires Faithful(x, cfg) && Extends(x.survivors, b)
    ensures Faithful(Do(x, ApplyStep(b), StoreExec(cfg)), cfg)
  {
    if Applied(x.state, b, cfg).Ok? { AppliedFaithful(x, b, cfg); }
  }

  lemma {:induction false} CutBelow(chain: seq<Block>, from: nat)
    requires Legal(chain)
    ensures forall i | 0 <= i < Cut(chain, from) :: chain[..Cut(chain, from)][i].header.number < from
  {
    CutSplits(chain, from);
  }

  /** A block above all survivors that shares nothing with them extends them. */
  lemma {:induction false} ExtendsAbove(chain: seq<Block>, b: Block)
    requires Legal(chain)
    requires forall i | 0 <= i < |chain| ::
      chain[i].header.number < b.header.number && chain[i].header.hash != b.header.hash && Disjoint(chain[i], b)
    ensures Extends(chain, b) && Surviving(chain, ApplyStep(b)) == chain + [b]
  {
    CutSplits(chain, b.header.number);
    assert Cut(chain, b.header.number) == |chain|;
    assert chain[..|chain|] == chain;
  }

  lemma {:induction false} CanonicalAt(s: State, chain: seq<Block>, cfg: Config, n: nat)
    requires Indexes(s, chain, cfg)
    ensures match CanonicalHash(s.blocks, n)
            case None => forall i | 0 <= i < |chain| :: chain[i].header.number != n
            case Some(h) => exists i | 0 <= i < |chain| :: chain[i].header.number == n && chain[i].header.hash == h
  {
    ChainAnchored(chain, cfg);
    BlocksListed(chain, cfg);
    var v := Seen(s);
    match CanonicalHash(s.blocks, n) {
      case None =>
        forall i | 0 <= i < |chain| ensures chain[i].header.number != n {
          assert chain[i].header.hash in v.blocks && v.blocks[chain[i].header.hash] == BlockFact(chain[i].header);
        }
      case Some(h) =>
        assert h in v.blocks && HasHeader(chain, v.blocks[h]);
    }
  }

  lemma {:induction false} BlocksListed(chain: seq<Block>, cfg: Config)
    requires Legal(chain) && ViewOf(chain, cfg).Ok?
    ensures forall i | 0 <= i < |chain| ::
      chain[i].header.hash in ViewOf(chain, cfg).value.blocks
      && ViewOf(chain, cfg).value.blocks[chain[i].header.hash] == BlockFact(chain[i].header)
    decreases |chain|
  {
    if chain != [] {
      var init, b := chain[..|chain| - 1], chain[|chain| - 1];
      assert chain == init + [b];
      BlocksListed(init, cfg);
      ChainAnchored(init, cfg);
      BlockAnchored(ViewOf(init, cfg).value, init, b, cfg);
      BlocksKept(ViewOf(init, cfg).value, b, cfg);
    }
  }

  lemma {:induction false} LogsKeepBlocks(v: View, b: Block, n: nat, cfg: Config)
    requires n <= |b.logs| && RecordLogs(v, b, n, cfg).Ok?
    ensures RecordLogs(v, b, n, cfg).value.blocks == v.blocks
  {
    if n > 0 { LogsKeepBlocks(v, b, n - 1, cfg); }
  }

  lemma {:induction false} BlocksKept(v: View, b: Block, cfg: Config)
    requires RecordBlock(v, b, cfg).Ok?
    ensures RecordBlock(v, b, cfg).value.blocks == v.blocks[b.header.hash := BlockFact(b.header)]
  {
    LogsKeepBlocks(Started(v, b.header), b, |b.logs|, cfg);
  }

  lemma {:induction false} RewoundFaithful(x: Index, from: nat, cfg: Config)
    requires Faithful(x, cfg) && Rewound(x.state, from, cfg).Ok?
    ensures Faithful(Index(Rewound(x.state, from, cfg).value, Surviving(x.survivors, RewindStep(from))), cfg)
  {
    RewindRefines(x.state, x.survivors, from, cfg);
    RewoundDerives(x.state, from, cfg);
    CutBelow(x.survivors, from);
    RewoundNames(Rewound(x.state, from, cfg).value, x.survivors[..Cut(x.survivors, from)], from, cfg);
  }

  lemma {:induction false} RewindFaithful(x: Index, from: nat, cfg: Config)
    requires Faithful(x, cfg)
    ensures Faithful(Do(x, RewindStep(from), StoreExec(cfg)), cfg)
  {
    if Rewound(x.state, from, cfg).Ok? { RewoundFaithful(x, from, cfg); }
  }

  lemma {:induction false} RewoundNames(s: State, kept: seq<Block>, from: nat, cfg: Config)
    requires Indexes(s, kept, cfg) && forall i | 0 <= i < |kept| :: kept[i].header.number < from
    requires s.checkpoint.Some? ==> s.checkpoint == RewoundCheckpoint(s, from)
    requires s.checkpoint.None? ==> kept == []
    ensures CheckpointNames(s, kept)
  {
    if from > 1 {
      CanonicalAt(s, kept, cfg, from - 1);
      if s.checkpoint.Some? && s.checkpoint.value.hash.Some? {
        var i :| 0 <= i < |kept| && kept[i].header.number == from - 1
                 && kept[i].header.hash == s.checkpoint.value.hash.value;
        assert i == |kept| - 1;
      }
    }
  }

  lemma {:induction false} FreshFaithful(cfg: Config)
    ensures Faithful(FRESH, cfg)
  {
    assert Seen(EMPTY_STATE) == EMPTY_VIEW;
  }

  /** Legal steps keep the index faithful. */
  ghost predicate Sound(exec: Exec, cfg: Config) {
    forall x, step | Faithful(x, cfg) && LegalStep(x, step) :: Faithful(Do(x, step, exec), cfg)
  }

  /** A block that a replay of the survivors accepts is accepted. */
  ghost predicate Accepting(exec: Exec, cfg: Config) {
    forall x, b | Faithful(x, cfg) && Extends(x.survivors, b)
      && Replayable(Surviving(x.survivors, ApplyStep(b)), cfg) ::
      exec(x.state, ApplyStep(b)).Ok?
  }

  /** A rewind is never refused. */
  ghost predicate Rewinding(exec: Exec, cfg: Config) {
    forall x, from: nat | Faithful(x, cfg) :: exec(x.state, RewindStep(from)).Ok?
  }

  ghost predicate Replayable(chain: seq<Block>, cfg: Config) {
    ViewOf(chain, cfg).Ok? && !Ambiguous(CtoHistory(ViewOf(chain, cfg).value))
  }

  lemma {:induction false} ApplySucceeds(s: State, chain: seq<Block>, b: Block, cfg: Config)
    requires Indexes(s, chain, cfg) && Extends(chain, b)
    requires Replayable(chain[..Cut(chain, b.header.number)] + [b], cfg)
    ensures Applied(s, b, cfg).Ok?
  {
    var kept, o := chain[..Cut(chain, b.header.number)], BlockOpened(s, b.header);
    OpenSeesKept(s, chain, b, cfg);
    BackedOpened(s, b.header, cfg.roots);
    forall l | l in b.logs ensures Restates(o, l, cfg.roots) { FreshKeysRestate(o, kept, b, cfg, l); }
    LogsRefine(o, b, |b.logs|, cfg);
    assert (kept + [b])[..|kept|] == kept;
  }

  /** A view cut at a height has no CTO history of its own. */
  lemma {:induction false} HistoryBelow(v: View, from: nat)
    ensures forall e | e in CtoHistory(BelowView(v, from)) :: e in CtoHistory(v)
    ensures Ambiguous(CtoHistory(BelowView(v, from))) ==> Ambiguous(CtoHistory(v))
  {
    forall e | e in CtoHistory(BelowView(v, from)) ensures e in CtoHistory(v) {
      CtoHistoryMembers(BelowView(v, from), e);
      CtoHistoryMembers(v, e);
    }
    AmbiguousSubset(CtoHistory(BelowView(v, from)), CtoHistory(v));
  }

  lemma {:induction false} AmbiguousSubset(us: seq<CtoLog>, vs: seq<CtoLog>)
    requires forall e | e in us :: e in vs
    ensures Ambiguous(us) ==> Ambiguous(vs)
  {
  }

  lemma {:induction false} UnambiguousHistory(x: Index, cfg: Config)
    requires Faithful(x, cfg)
    ensures !Ambiguous(CtoHistory(Seen(x.state)))
  {
    if x.state == EMPTY_STATE { NoCtoHistory(Seen(x.state)); }
  }

  /** The only refusal of a rewind, an ambiguous fee route, would have refused an earlier transaction. */
  lemma {:induction false} RewindAccepts(x: Index, from: nat, cfg: Config)
    requires Faithful(x, cfg)
    ensures Rewound(x.state, from, cfg).Ok?
  {
    SeenOrphanedFrom(x.state, from);
    UnambiguousHistory(x, cfg);
    HistoryBelow(Seen(x.state), from);
  }

  /** The store's own transactions are sound and accepting. */
  lemma {:induction false} StoreIsSound(cfg: Config)
    ensures Sound(StoreExec(cfg), cfg) && Accepting(StoreExec(cfg), cfg) && Rewinding(StoreExec(cfg), cfg)
  {
    forall x, step | Faithful(x, cfg) && LegalStep(x, step) ensures Faithful(Do(x, step, StoreExec(cfg)), cfg) {
      match step {
        case ApplyStep(b) => ApplyFaithful(x, b, cfg);
        case RewindStep(from) => RewindFaithful(x, from, cfg);
      }
    }
    forall x, b | Faithful(x, cfg) && Extends(x.survivors, b) && Replayable(Surviving(x.survivors, ApplyStep(b)), cfg)
      ensures StoreExec(cfg)(x.state, ApplyStep(b)).Ok?
    {
      ApplySucceeds(x.state, x.survivors, b, cfg);
    }
    forall x, from: nat | Faithful(x, cfg) ensures StoreExec(cfg)(x.state, RewindStep(from)).Ok? {
      RewindAccepts(x, from, cfg);
    }
  }

  // ---------------------------------------------------------------- whole runs

  lemma {:induction false} RunAppend(x: Index, steps: seq<Step>, last: Step, exec: Exec)
    ensures Run(x, steps + [last], exec) == Do(Run(x, steps, exec), last, exec)
    ensures LegalRun(x, steps + [last], exec) <==> LegalRun(x, steps, exec) && LegalStep(Run(x, steps, exec), last)
  {
    var all := steps + [last];
    assert all[..|steps|] == steps && all[|steps|] == last;
    assert forall i | 0 <= i < |steps| :: all[..i] == steps[..i] && all[i] == steps[i];
  }

  lemma {:induction false} Unsnoc<T>(s: seq<T>)
    requires s != []
    ensures s == s[..|s| - 1] + [s[|s| - 1]]
  {
  }

  /** Every legal run keeps the index faithful to its surviving blocks. */
  lemma {:induction false} RunFaithful(x: Index, steps: seq<Step>, exec: Exec, cfg: Config)
    requires Sound(exec, cfg) && Faithful(x, cfg) && LegalRun(x, steps, exec)
    ensures Faithful(Run(x, steps, exec), cfg)
    decreases |steps|
  {
    if steps != [] {
      var init, last := steps[..|steps| - 1], steps[|steps| - 1];
      Unsnoc(steps);
      RunAppend(x, init, last, exec);
      RunFaithful(x, init, exec, cfg);
    }
  }

  // ---------------------------------------------------------------- a fresh replay

  function ApplyAll(chain: seq<Block>): seq<Step> {
    seq(|chain|, i requires 0 <= i < |chain| => ApplyStep(chain[i]))
  }

  lemma {:induction false} CutAt(chain: seq<Block>, i: nat)
    requires Legal(chain) && i < |chain|
    ensures Cut(chain, chain[i].header.number) == i
  {
    var from := chain[i].header.number;
    CutSplits(chain, from);
    var c := Cut(chain, from);
    assert c < |chain| ==> chain[c].header.number >= from;
  }

  lemma {:induction false} ReplayableInit(init: seq<Block>, b: Block, cfg: Config)
    requires Legal(init + [b]) && Replayable(init + [b], cfg)
    ensures Replayable(init, cfg)
  {
    var chain := init + [b];
    assert chain[|init|] == b && chain[..|init|] == init;
    ViewBelow(chain, cfg, b.header.number);
    CutAt(chain, |init|);
    var v := ViewOf(chain, cfg).value;
    HistoryBelow(v, b.header.number);
  }

  lemma {:induction false} CutWhole(init: seq<Block>, b: Block)
    requires Legal(init + [b])
    ensures Surviving(init, ApplyStep(b)) == init + [b] && Extends(init, b)
  {
    var chain := init + [b];
    forall i | 0 <= i < |init| ensures init[i].header.number < b.header.number && init[i].header.hash != b.header.hash {
      assert chain[i] == init[i] && chain[|init|] == b;
    }
    assert init[..|init|] == init;
  }

  ghost predicate Replays(chain: seq<Block>, exec: Exec) {
    LegalRun(FRESH, ApplyAll(chain), exec) && Run(FRESH, ApplyAll(chain), exec).survivors == chain
  }

  lemma {:induction false} ReplayGrows(init: seq<Block>, b: Block, exec: Exec, cfg: Config)
    requires Sound(exec, cfg) && Accepting(exec, cfg)
    requires Replays(init, exec) && Legal(init + [b]) && Replayable(init + [b], cfg)
    ensures Replays(init + [b], exec)
  {
    var steps := ApplyAll(init);
    FreshFaithful(cfg);
    RunFaithful(FRESH, steps, exec, cfg);
    CutWhole(init, b);
    AcceptsNext(Run(FRESH, steps, exec), b, exec, cfg);
    RunAppend(FRESH, steps, ApplyStep(b), exec);
    ApplyAllGrows(init, b);
  }

  lemma {:induction false} AcceptsNext(x: Index, b: Block, exec: Exec, cfg: Config)
    requires Accepting(exec, cfg) && Faithful(x, cfg) && Extends(x.survivors, b)
    requires Replayable(Surviving(x.survivors, ApplyStep(b)), cfg)
    ensures Do(x, ApplyStep(b), exec).survivors == Surviving(x.survivors, ApplyStep(b))
  {
    assert exec(x.state, ApplyStep(b)).Ok?;
  }

  lemma {:induction false} ApplyAllGrows(init: seq<Block>, b: Block)
    ensures ApplyAll(init + [b]) == ApplyAll(init) + [ApplyStep(b)]
  {
  }

  /** Any legal chain that replays at all replays through the store, block by block. */
  lemma {:induction false} FreshReplay(chain: seq<Block>, exec: Exec, cfg: Config)
    requires Sound(exec, cfg) && Accepting(exec, cfg)
    requires Legal(chain) && Replayable(chain, cfg)
    ensures Replays(chain, exec)
    decreases |chain|
  {
    if chain == [] {
      assert ApplyAll(chain) == [];
    } else {
      var init, b := chain[..|chain| - 1], chain[|chain| - 1];
      Unsnoc(chain);
      ReplayableInit(init, b, cfg);
      LegalPrefix(chain, |chain| - 1);
      FreshReplay(init, exec, cfg);
      ReplayGrows(init, b, exec, cfg);
    }
  }

  /** Two faithful indexes of the same blocks show readers the same rows and derived tables, and
      the same CTO state whenever every proposal they speak of was opened on the chain. */
  ghost predicate Alike(x: Index, y: Index) {
    x.survivors == y.survivors
    && Seen(x.state) == Seen(y.state) && SeenDerived(x.state) == SeenDerived(y.state)
    && (EveryProposalOpened(CtoHistory(Seen(x.state))) ==> Visible(x.state.cto) == Visible(y.state.cto))
  }

  /** With nothing visible the rebuilt tables are those of a new database. */
  lemma {:induction false} EmptyDerived(s: State, cfg: Config)
    requires DerivedFresh(s, cfg) && Seen(s) == Seen(EMPTY_STATE)
    ensures SeenDerived(s) == SeenDerived(EMPTY_STATE)
  {
    NothingDerived(Seen(s), cfg);
    assert SeenDerived(EMPTY_STATE).columns.Keys == {};
  }

  lemma {:induction false} NothingDerived(v: View, cfg: Config)
    requires v.curves == map[] && v.tokens == map[] && v.trades == map[] && v.events == map[]
    ensures DerivedOf(v, cfg) == Derived(map[], map[], map[], map[])
  {
    assert Tokens(v) == {} && Launched(v) == {};
    var d := DerivedOf(v, cfg);
    assert d.columns.Keys == {} && d.metrics.Keys == {} && d.holders.Keys == {} && d.buckets.Keys == {};
  }

  lemma {:induction false} EmptyCto(s: State)
    requires CtoRebuilt(s) && Seen(s) == Seen(EMPTY_STATE)
    ensures Visible(s.cto) == Visible(EMPTY_CTO)
  {
    NoCtoHistory(Seen(s));
    var t :| CtoFrom(s, t);
    ClearedShowsNothing(t);
  }

  lemma {:induction false} NoCtoHistory(v: View)
    requires v.events == map[]
    ensures CtoHistory(v) == []
  {
    assert forall p :: p !in EventOrder(v);
  }

  lemma {:induction false} ClearedShowsNothing(t: CtoTables)
    ensures Visible(Cleared(t)) == Visible(EMPTY_CTO)
  {
    var c := Cleared(t);
    assert forall k | k in c.records :: !c.records[k].canonical;
    assert forall k | k in c.proposals :: !c.proposals[k].canonical;
    assert forall k | k in c.states :: !c.states[k].canonical;
  }

  lemma {:induction false} FaithfulAgree(x: Index, y: Index, cfg: Config)
    requires Faithful(x, cfg) && Faithful(y, cfg) && x.survivors == y.survivors
    ensures Alike(x, y)
  {
    if x.state == EMPTY_STATE || y.state == EMPTY_STATE {
      if x.state != EMPTY_STATE { EmptyDerived(x.state, cfg); EmptyCto(x.state); }
      if y.state != EMPTY_STATE { EmptyDerived(y.state, cfg); EmptyCto(y.state); }
      return;
    }
    var es := CtoHistory(Seen(x.state));
    if EveryProposalOpened(es) {
      var t :| CtoFrom(x.state, t);
      var u :| CtoFrom(y.state, u);
      RebuildForgets(t, u, es);
    }
  }

  /** Reorg refinement: after any legal run of the store from an empty database, canonical blocks,
      events, projections and derived tables are those of a fresh in-order replay of the survivors. */
  lemma {:induction false} ReorgRefinement(steps: seq<Step>, cfg: Config)
    requires LegalRun(FRESH, steps, StoreExec(cfg))
    ensures var x := Run(FRESH, steps, StoreExec(cfg));
      ViewOf(x.survivors, cfg) == Ok(Seen(x.state)) && CheckpointNames(x.state, x.survivors)
      && Alike(x, Run(FRESH, ApplyAll(x.survivors), StoreExec(cfg)))
  {
    var exec := StoreExec(cfg);
    StoreIsSound(cfg);
    FreshFaithful(cfg);
    RunFaithful(FRESH, steps, exec, cfg);
    var x := Run(FRESH, steps, exec);
    FreshReplay(x.survivors, exec, cfg);
    RunFaithful(FRESH, ApplyAll(x.survivors), exec, cfg);
    FaithfulAgree(x, Run(FRESH, ApplyAll(x.survivors), exec), cfg);
  }

  // ---------------------------------------------------------------- rewinds restore

  lemma {:induction false} CutIs(chain: seq<Block>, from: nat, k: nat)
    requires k <= |chain| && (forall i | 0 <= i < k :: chain[i].header.number < from)
    requires forall i | k <= i < |chain| :: chain[i].header.number >= from
    ensures Cut(chain, from) == k
    decreases |chain|
  {
    if k < |chain| { CutIs(chain[..|chain| - 1], from, k); }
  }

  lemma {:induction false} CutMonotone(chain: seq<Block>, from: nat, n: nat)
    requires from <= n
    ensures Cut(chain, from) <= Cut(chain, n)
    decreases |chain|
  {
    if chain != [] { CutMonotone(chain[..|chain| - 1], from, n); }
  }

  lemma {:induction false} CutTwice(chain: seq<Block>, n: nat, b: Block, from: nat)
    requires Legal(chain) && from <= n == b.header.number
    ensures var grown := chain[..Cut(chain, n)] + [b];
      grown[..Cut(grown, from)] == chain[..Cut(chain, from)]
  {
    var m, a := Cut(chain, n), Cut(chain, from);
    var grown := chain[..m] + [b];
    CutSplits(chain, n);
    CutSplits(chain, from);
    CutMonotone(chain, from, n);
    CutIs(grown, from, a);
    assert grown[..a] == chain[..a];
  }

  ghost predicate KeepsBelow(x: Index, y: Index, from: nat) {
    y.survivors[..Cut(y.survivors, from)] == x.survivors[..Cut(x.survivors, from)]
  }

  lemma {:induction false} CutOfCut(chain: seq<Block>, n: nat, from: nat)
    requires Legal(chain) && from <= n
    ensures var cut := chain[..Cut(chain, n)]; cut[..Cut(cut, from)] == chain[..Cut(chain, from)]
  {
    var m, a := Cut(chain, n), Cut(chain, from);
    CutSplits(chain, n);
    CutSplits(chain, from);
    CutMonotone(chain, from, n);
    CutIs(chain[..m], from, a);
  }

  /** A step that leaves everything below a height alone. */
  predicate AtOrAbove(step: Step, from: nat) {
    match step
    case ApplyStep(b) => b.header.number >= from
    case RewindStep(n) => n >= from
  }

  lemma {:induction false} StepsAboveKeep(x: Index, steps: seq<Step>, exec: Exec, cfg: Config, from: nat)
    requires Sound(exec, cfg) && Faithful(x, cfg) && LegalRun(x, steps, exec)
    requires forall s | s in steps :: AtOrAbove(s, from)
    ensures KeepsBelow(x, Run(x, steps, exec), from)
    decreases |steps|
  {
    if steps != [] {
      var init, last := steps[..|steps| - 1], steps[|steps| - 1];
      Unsnoc(steps);
      assert last in steps && forall s | s in init :: s in steps;
      RunAppend(x, init, last, exec);
      StepsAboveKeep(x, init, exec, cfg, from);
      RunFaithful(x, init, exec, cfg);
      var y := Run(x, init, exec);
      match last {
        case ApplyStep(b) => CutTwice(y.survivors, b.header.number, b, from);
        case RewindStep(n) => CutOfCut(y.survivors, n, from);
      }
    }
  }

  lemma {:induction false} RewindRestoresBy(x: Index, steps: seq<Step>, exec: Exec, cfg: Config, from: nat)
    requires Sound(exec, cfg) && Rewinding(exec, cfg) && Faithful(x, cfg) && LegalRun(x, steps, exec)
    requires forall i | 0 <= i < |x.survivors| :: x.survivors[i].header.number < from
    requires forall s | s in steps :: AtOrAbove(s, from)
    ensures Alike(x, Run(x, steps + [RewindStep(from)], exec))
  {
    StepsAboveKeep(x, steps, exec, cfg, from);
    RunFaithful(x, steps, exec, cfg);
    RunAppend(x, steps, RewindStep(from), exec);
    RunFaithful(x, steps + [RewindStep(from)], exec, cfg);
    WholeBelow(x.survivors, from);
    assert exec(Run(x, steps, exec).state, RewindStep(from)).Ok?;
    FaithfulAgree(x, Run(x, steps + [RewindStep(from)], exec), cfg);
  }

  lemma {:induction false} WholeBelow(chain: seq<Block>, from: nat)
    requires chain == [] || chain[|chain| - 1].header.number < from
    ensures chain[..Cut(chain, from)] == chain
  {
  }

  /** A rewind undoes every apply and rewind at or above its height: rows, derived tables and, when
      every proposal was opened on the surviving chain, exactly the earlier CTO state. */
  lemma {:induction false} RewindRestores(x: Index, steps: seq<Step>, cfg: Config, from: nat)
    requires Faithful(x, cfg) && LegalRun(x, steps, StoreExec(cfg))
    requires forall i | 0 <= i < |x.survivors| :: x.survivors[i].header.number < from
    requires forall s | s in steps :: AtOrAbove(s, from)
    ensures Alike(x, Run(x, steps + [RewindStep(from)], StoreExec(cfg)))
  {
    StoreIsSound(cfg);
    RewindRestoresBy(x, steps, StoreExec(cfg), cfg, from);
  }
}
