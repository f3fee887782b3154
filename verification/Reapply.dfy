/** Applying the same block twice. Two of its projections look things up in the tables: a pool's
    token and a treasury's deployment. The second application sees what the block itself declared
    later, so it changes nothing exactly when no lookup would now answer differently. */
module Reapply {
  import opened Wrappers
  import opened Chain
  import opened Tables
  import opened CtoProjection
  import opened Views
  import opened Store
  import opened Reorg
  import opened Runs

  ghost predicate DistinctKeys(b: Block) {
    forall i, j | 0 <= i < j < |b.logs| :: b.logs[i].Key() != b.logs[j].Key()
  }

  /** A block recorded for the first time: no row of its logs exists yet. */
  ghost predicate FirstTime(v: View, b: Block) {
    DistinctKeys(b) && forall l | l in b.logs :: KeyAbsent(v, l.Key())
  }

  /** Log i's lookups give the same answers in the final view as when it was recorded. */
  ghost predicate SameLookups(before: View, after: View, l: Log, roots: Roots) {
    (l.payload.Swap? ==>
      PoolOwner(before.curves, before.tokens, l.address) == PoolOwner(after.curves, after.tokens, l.address))
    && (TrustedLog(before, l, roots) <==> TrustedLog(after, l, roots))
  }

  /** Log i's lookups have settled. */
  ghost predicate SettledAt(v: View, b: Block, i: nat, cfg: Config)
    requires i < |b.logs| && RecordLogs(v, b, |b.logs|, cfg).Ok?
  {
    RecordLogs(v, b, i, cfg).Ok? ==>
      SameLookups(RecordLogs(v, b, i, cfg).value, RecordLogs(v, b, |b.logs|, cfg).value, b.logs[i], cfg.roots)
  }

  /** The lookups of the first n logs have settled. */
  ghost predicate SettledTo(v: View, b: Block, n: nat, cfg: Config)
    requires n <= |b.logs| && RecordLogs(v, b, |b.logs|, cfg).Ok?
  {
    forall i | 0 <= i < n :: SettledAt(v, b, i, cfg)
  }

  ghost predicate Settled(v: View, b: Block, cfg: Config)
    requires RecordLogs(v, b, |b.logs|, cfg).Ok?
  {
    SettledTo(v, b, |b.logs|, cfg)
  }

  // ---------------------------------------------------------------- rows persist within a block

  /** A table agrees with what a log wrote: the row is there, or no row of its key is. */
  ghost predicate Holds<T>(facts: Facts<LogKey, T>, l: Log, data: Option<T>) {
    match data
    case None => l.Key() !in facts
    case Some(d) => l.Key() in facts && facts[l.Key()] == Fact(l.block, l.blockHash, d)
  }

  ghost predicate HoldsAll(v: View, l: Log, w: Writes) {
    Holds(v.events, l, w.event) && Holds(v.tokens, l, w.token) && Holds(v.curves, l, w.curve)
    && Holds(v.trades, l, w.trade) && Holds(v.graduations, l, w.graduation) && Holds(v.liquidity, l, w.liquidity)
  }

  lemma {:induction false} Prefix(v: View, b: Block, i: nat, n: nat, cfg: Config)
    requires i <= n <= |b.logs| && RecordLogs(v, b, n, cfg).Ok?
    ensures RecordLogs(v, b, i, cfg).Ok?
  {
    if i < n { Prefix(v, b, i, n - 1, cfg); }
  }

  lemma {:induction false} StillAbsent(v: View, b: Block, i: nat, n: nat, cfg: Config)
    requires FirstTime(v, b) && n <= i < |b.logs| && RecordLogs(v, b, n, cfg).Ok?
    ensures KeyAbsent(RecordLogs(v, b, n, cfg).value, b.logs[i].Key())
  {
    if n == 0 {
      assert b.logs[i] in b.logs;
    } else {
      StillAbsent(v, b, i, n - 1, cfg);
    }
  }

  lemma {:induction false} PutHolds(u: View, l: Log, w: Writes)
    requires KeyAbsent(u, l.Key())
    ensures HoldsAll(PutAll(u, l, w), l, w)
  {
  }

  lemma {:induction false} PutElsewhere(u: View, m: Log, x: Writes, l: Log, w: Writes)
    requires m.Key() != l.Key()
    ensures HoldsAll(PutAll(u, m, x), l, w) <==> HoldsAll(u, l, w)
  {
  }

  lemma {:induction false} LastLog(v: View, b: Block, n: nat, cfg: Config)
    requires 0 < n <= |b.logs| && RecordLogs(v, b, n, cfg).Ok?
    ensures RecordLogs(v, b, n - 1, cfg).Ok?
    ensures var u, l := RecordLogs(v, b, n - 1, cfg).value, b.logs[n - 1];
      EffectsIn(u, l, b.context, cfg).Ok?
      && RecordLogs(v, b, n, cfg).value == PutAll(u, l, EffectsIn(u, l, b.context, cfg).value)
      && l.block == b.header.number && l.blockHash == b.header.hash
  {
  }

  lemma {:induction false} Persists(v: View, b: Block, i: nat, n: nat, cfg: Config)
    requires FirstTime(v, b) && i < n <= |b.logs| && RecordLogs(v, b, n, cfg).Ok?
    ensures RecordLogs(v, b, i, cfg).Ok? && EffectsIn(RecordLogs(v, b, i, cfg).value, b.logs[i], b.context, cfg).Ok?
    ensures HoldsAll(RecordLogs(v, b, n, cfg).value, b.logs[i],
                     EffectsIn(RecordLogs(v, b, i, cfg).value, b.logs[i], b.context, cfg).value)
  {
    LastLog(v, b, n, cfg);
    var u, m := RecordLogs(v, b, n - 1, cfg).value, b.logs[n - 1];
    var x := EffectsIn(u, m, b.context, cfg).value;
    if i == n - 1 {
      StillAbsent(v, b, i, i, cfg);
      PutHolds(u, m, x);
    } else {
      Persists(v, b, i, n - 1, cfg);
      PutElsewhere(u, m, x, b.logs[i], EffectsIn(RecordLogs(v, b, i, cfg).value, b.logs[i], b.context, cfg).value);
    }
  }

  /** Every row that lookups read is still there. */
  ghost predicate Grew(u: View, t: View) {
    Kept(u.events, t.events) && Kept(u.tokens, t.tokens) && Kept(u.curves, t.curves)
  }

  ghost predicate Kept<T>(u: Facts<LogKey, T>, t: Facts<LogKey, T>) {
    forall k | k in u :: k in t && t[k] == u[k]
  }

  lemma {:induction false} PutKeeps(u: View, l: Log, w: Writes)
    requires KeyAbsent(u, l.Key())
    ensures Grew(u, PutAll(u, l, w))
  {
  }

  lemma {:induction false} GrewTwice(u: View, m: View, t: View)
    requires Grew(u, m) && Grew(m, t)
    ensures Grew(u, t)
  {
  }

  lemma {:induction false} Grows(v: View, b: Block, i: nat, n: nat, cfg: Config)
    requires FirstTime(v, b) && i <= n <= |b.logs| && RecordLogs(v, b, n, cfg).Ok?
    ensures RecordLogs(v, b, i, cfg).Ok?
    ensures Grew(RecordLogs(v, b, i, cfg).value, RecordLogs(v, b, n, cfg).value)
  {
    if i < n {
      LastLog(v, b, n, cfg);
      Grows(v, b, i, n - 1, cfg);
      StillAbsent(v, b, n - 1, n - 1, cfg);
      var m, l := RecordLogs(v, b, n - 1, cfg).value, b.logs[n - 1];
      PutKeeps(m, l, EffectsIn(m, l, b.context, cfg).value);
      GrewTwice(RecordLogs(v, b, i, cfg).value, m, RecordLogs(v, b, n, cfg).value);
    }
  }

  lemma {:induction false} OwnerPersists(u: View, t: View, pool: Address)
    requires Grew(u, t)
    ensures PoolOwner(u.curves, u.tokens, pool).Some? ==> PoolOwner(t.curves, t.tokens, pool).Some?
  {
    var keys := set k | k in u.curves && u.curves[k].data.pool == pool
                        && exists s | s in u.tokens :: u.tokens[s].data.token == u.curves[k].data.token;
    if k :| k in keys {
      var s :| s in u.tokens && u.tokens[s].data.token == u.curves[k].data.token;
      assert s in t.tokens && t.tokens[s].data.token == t.curves[k].data.token;
      assert k in set j | j in t.curves && t.curves[j].data.pool == pool
                          && exists s | s in t.tokens :: t.tokens[s].data.token == t.curves[j].data.token;
    }
  }

  lemma {:induction false} TrustPersists(u: View, t: View, l: Log, roots: Roots)
    requires Grew(u, t)
    ensures TrustedLog(u, l, roots) ==> TrustedLog(t, l, roots)
  {
  }

  // ---------------------------------------------------------------- one log again

  lemma {:induction false} PutSame<T>(facts: Facts<LogKey, T>, l: Log, data: Option<T>)
    requires Holds(facts, l, data)
    ensures Put(facts, l, data) == facts
  {
  }

  lemma {:induction false} AgainSame(t: View, l: Log, w: Writes)
    requires HoldsAll(t, l, w)
    ensures PutAll(t, l, w) == t
  {
    PutSame(t.events, l, w.event);
    PutSame(t.tokens, l, w.token);
    PutSame(t.curves, l, w.curve);
    PutSame(t.trades, l, w.trade);
    PutSame(t.graduations, l, w.graduation);
    PutSame(t.liquidity, l, w.liquidity);
  }

  /** A lookup that answers differently leaves a trace under the log's own key, or an error. */
  lemma {:induction false} AgainDiffers(u: View, t: View, l: Log, ctx: Context, cfg: Config)
    requires EffectsIn(u, l, ctx, cfg).Ok? && HoldsAll(t, l, EffectsIn(u, l, ctx, cfg).value)
    requires !SameLookups(u, t, l, cfg.roots)
    requires TrustedLog(u, l, cfg.roots) ==> TrustedLog(t, l, cfg.roots)
    requires PoolOwner(u.curves, u.tokens, l.address).Some? ==> PoolOwner(t.curves, t.tokens, l.address).Some?
    ensures EffectsIn(t, l, ctx, cfg).Ok? ==>
      !HoldsAll(PutAll(t, l, EffectsIn(t, l, ctx, cfg).value), l, EffectsIn(u, l, ctx, cfg).value)
  {
    var before, after := PoolOwner(u.curves, u.tokens, l.address), PoolOwner(t.curves, t.tokens, l.address);
    if EffectsIn(t, l, ctx, cfg).Ok? {
      EffectsDiffer(l, TrustedLog(u, l, cfg.roots), TrustedLog(t, l, cfg.roots), before, after, ctx, cfg);
      PutDiffers(t, l, EffectsIn(t, l, ctx, cfg).value, EffectsIn(u, l, ctx, cfg).value);
    }
  }

  /** The rows a log writes tell which answer its lookup gave. */
  lemma {:induction false} EffectsDiffer(l: Log, trusted: bool, later: bool, owner: Option<Address>,
                                         other: Option<Address>,
                                         ctx: Context, cfg: Config)
    requires Effects(l, trusted, owner, ctx, cfg).Ok? && Effects(l, later, other, ctx, cfg).Ok?
    requires (trusted ==> l.payload.Cto?) && (later ==> l.payload.Cto?) && (trusted ==> later)
      && (owner.Some? ==> other.Some?)
    requires (l.payload.Swap? && owner != other) || trusted != later
    ensures var v, w := Effects(l, later, other, ctx, cfg).value, Effects(l, trusted, owner, ctx, cfg).value;
      (v.event.Some? && v.event != w.event) || (v.trade.Some? && v.trade != w.trade)
  {
  }

  lemma {:induction false} PutDiffers(t: View, l: Log, v: Writes, w: Writes)
    requires (v.event.Some? && v.event != w.event) || (v.trade.Some? && v.trade != w.trade)
    ensures !HoldsAll(PutAll(t, l, v), l, w)
  {
  }

  /** Other logs of the block never touch this log's rows. */
  lemma {:induction false} OthersLeave(t: View, b: Block, i: nat, m: nat, n: nat, cfg: Config, w: Writes)
    requires DistinctKeys(b) && i < m <= n <= |b.logs| && RecordLogs(t, b, n, cfg).Ok?
    ensures RecordLogs(t, b, m, cfg).Ok?
    ensures HoldsAll(RecordLogs(t, b, n, cfg).value, b.logs[i], w)
      <==> HoldsAll(RecordLogs(t, b, m, cfg).value, b.logs[i], w)
  {
    if m < n {
      LastLog(t, b, n, cfg);
      OthersLeave(t, b, i, m, n - 1, cfg, w);
      var u := RecordLogs(t, b, n - 1, cfg).value;
      PutElsewhere(u, b.logs[n - 1], EffectsIn(u, b.logs[n - 1], b.context, cfg).value, b.logs[i], w);
    }
  }

  /** While the lookups agree, recording the block again stays put. */
  lemma {:induction false} AgainPrefix(v: View, b: Block, n: nat, cfg: Config, t: View)
    requires FirstTime(v, b) && n <= |b.logs| && RecordLogs(v, b, |b.logs|, cfg) == Ok(t)
    requires SettledTo(v, b, n, cfg)
    ensures RecordLogs(t, b, n, cfg) == Ok(t)
  {
    if n > 0 {
      AgainPrefix(v, b, n - 1, cfg, t);
      AgainOne(v, b, n, cfg, t);
      AgainStep(t, b, n, cfg);
    }
  }

  lemma {:induction false} AgainOne(v: View, b: Block, n: nat, cfg: Config, t: View)
    requires FirstTime(v, b) && 0 < n <= |b.logs| && RecordLogs(v, b, |b.logs|, cfg) == Ok(t)
    requires SettledAt(v, b, n - 1, cfg)
    ensures b.logs[n - 1].block == b.header.number && b.logs[n - 1].blockHash == b.header.hash
    ensures RecordLog(t, b.logs[n - 1], b.context, cfg) == Ok(t)
  {
    LastLogProvenance(v, b, n - 1, cfg);
    Persists(v, b, n - 1, |b.logs|, cfg);
    AgainLog(RecordLogs(v, b, n - 1, cfg).value, t, b.logs[n - 1], b.context, cfg);
  }

  /** A log whose rows are in place and whose lookups answer as before writes the same rows again. */
  lemma {:induction false} AgainLog(u: View, t: View, l: Log, ctx: Context, cfg: Config)
    requires SameLookups(u, t, l, cfg.roots)
    requires EffectsIn(u, l, ctx, cfg).Ok? && HoldsAll(t, l, EffectsIn(u, l, ctx, cfg).value)
    ensures RecordLog(t, l, ctx, cfg) == Ok(t)
  {
    SameEffects(u, t, l, ctx, cfg);
    AgainSame(t, l, EffectsIn(u, l, ctx, cfg).value);
  }

  lemma {:induction false} AgainStep(t: View, b: Block, n: nat, cfg: Config)
    requires 0 < n <= |b.logs| && RecordLogs(t, b, n - 1, cfg) == Ok(t)
    requires b.logs[n - 1].block == b.header.number && b.logs[n - 1].blockHash == b.header.hash
    ensures RecordLogs(t, b, n, cfg) == RecordLog(t, b.logs[n - 1], b.context, cfg)
  {
  }

  lemma {:induction false} SameEffects(u: View, t: View, l: Log, ctx: Context, cfg: Config)
    requires SameLookups(u, t, l, cfg.roots)
    ensures EffectsIn(u, l, ctx, cfg) == EffectsIn(t, l, ctx, cfg)
  {
  }

  lemma {:induction false} FirstUnsettled(v: View, b: Block, n: nat, cfg: Config) returns (i: nat)
    requires n <= |b.logs| && RecordLogs(v, b, |b.logs|, cfg).Ok?
    requires !SettledTo(v, b, n, cfg)
    ensures i < n && SettledTo(v, b, i, cfg) && !SettledAt(v, b, i, cfg)
  {
    if SettledTo(v, b, n - 1, cfg) {
      i := n - 1;
    } else {
      i := FirstUnsettled(v, b, n - 1, cfg);
    }
  }

  /** Recording a block a second time changes nothing exactly when its lookups have settled. */
  lemma {:induction false} ReapplyIff(v: View, b: Block, cfg: Config)
    requires FirstTime(v, b) && RecordLogs(v, b, |b.logs|, cfg).Ok?
    ensures var t := RecordLogs(v, b, |b.logs|, cfg).value;
      RecordLogs(t, b, |b.logs|, cfg) == Ok(t) <==> Settled(v, b, cfg)
  {
    var n := |b.logs|;
    var t := RecordLogs(v, b, n, cfg).value;
    if Settled(v, b, cfg) {
      AgainPrefix(v, b, n, cfg, t);
    } else {
      var i := FirstUnsettled(v, b, n, cfg);
      AgainPrefix(v, b, i, cfg, t);
      UnsettledDiffers(v, b, i, cfg, t);
    }
  }

  lemma {:induction false} UnsettledDiffers(v: View, b: Block, i: nat, cfg: Config, t: View)
    requires FirstTime(v, b) && i < |b.logs| && RecordLogs(v, b, |b.logs|, cfg) == Ok(t)
    requires !SettledAt(v, b, i, cfg) && RecordLogs(t, b, i, cfg) == Ok(t)
    ensures RecordLogs(t, b, |b.logs|, cfg) != Ok(t)
  {
    var n := |b.logs|;
    Persists(v, b, i, n, cfg);
    var w := EffectsIn(RecordLogs(v, b, i, cfg).value, b.logs[i], b.context, cfg).value;
    LookupDiffers(v, b, i, cfg, t);
    if RecordLogs(t, b, n, cfg).Ok? {
      Prefix(t, b, i + 1, n, cfg);
      LastLog(t, b, i + 1, cfg);
      OthersLeave(t, b, i, i + 1, n, cfg, w);
    }
  }

  lemma {:induction false} LookupDiffers(v: View, b: Block, i: nat, cfg: Config, t: View)
    requires FirstTime(v, b) && i < |b.logs| && RecordLogs(v, b, |b.logs|, cfg) == Ok(t) && !SettledAt(v, b, i, cfg)
    requires RecordLogs(v, b, i, cfg).Ok? && EffectsIn(RecordLogs(v, b, i, cfg).value, b.logs[i], b.context, cfg).Ok?
    requires HoldsAll(t, b.logs[i], EffectsIn(RecordLogs(v, b, i, cfg).value, b.logs[i], b.context, cfg).value)
    ensures EffectsIn(t, b.logs[i], b.context, cfg).Ok? ==>
      !HoldsAll(PutAll(t, b.logs[i], EffectsIn(t, b.logs[i], b.context, cfg).value), b.logs[i],
                EffectsIn(RecordLogs(v, b, i, cfg).value, b.logs[i], b.context, cfg).value)
  {
    var u, l := RecordLogs(v, b, i, cfg).value, b.logs[i];
    Grows(v, b, i, |b.logs|, cfg);
    OwnerPersists(u, t, l.address);
    TrustPersists(u, t, l, cfg.roots);
    AgainDiffers(u, t, l, b.context, cfg);
  }

  // ---------------------------------------------------------------- blocks that settle

  /** Can this log change what the lookups of the other answer? A launch may own a pool, a deployment
      makes its treasury trusted. */
  predicate Unsettles(l: Log, m: Log, cfg: Config) {
    (l.payload.Swap? && m.payload.Launch? && m.payload.token !in cfg.excluded)
    || (l.payload.Cto? && Deploys(Event(m.txIndex, m.address, m.payload), l.address, cfg.roots))
  }

  /** Readable off the block: no log is followed by one that can change its lookups. */
  ghost predicate WellOrdered(b: Block, cfg: Config) {
    forall i, j | 0 <= i <= j < |b.logs| :: !Unsettles(b.logs[i], b.logs[j], cfg)
  }

  /** No log from i on changes the answers log i got. */
  ghost predicate Undisturbed(b: Block, i: nat, cfg: Config)
    requires i < |b.logs|
  {
    forall j | i <= j < |b.logs| :: !Unsettles(b.logs[i], b.logs[j], cfg)
  }

  /** Rows that leave the lookups of a log alone. */
  predicate Quiet(l: Log, w: Writes, roots: Roots) {
    (l.payload.Swap? ==> w.token.None? && w.curve.None?)
    && (l.payload.Cto? && w.event.Some? ==> !Deploys(w.event.value, l.address, roots))
  }

  lemma {:induction false} QuietWrites(l: Log, m: Log, trusted: bool, owner: Option<Address>, ctx: Context, cfg: Config)
    requires Effects(m, trusted, owner, ctx, cfg).Ok? && !Unsettles(l, m, cfg)
    ensures Quiet(l, Effects(m, trusted, owner, ctx, cfg).value, cfg.roots)
  {
  }

  lemma {:induction false} QuietPut(u: View, m: Log, w: Writes, l: Log, roots: Roots)
    requires Quiet(l, w, roots) && KeyAbsent(u, m.Key())
    ensures SameLookups(u, PutAll(u, m, w), l, roots)
  {
    PutKeeps(u, m, w);
  }

  lemma {:induction false} QuietStep(u: View, l: Log, m: Log, ctx: Context, cfg: Config)
    requires EffectsIn(u, m, ctx, cfg).Ok? && KeyAbsent(u, m.Key()) && !Unsettles(l, m, cfg)
    ensures SameLookups(u, PutAll(u, m, EffectsIn(u, m, ctx, cfg).value), l, cfg.roots)
  {
    QuietWrites(l, m, TrustedLog(u, m, cfg.roots), PoolOwner(u.curves, u.tokens, m.address), ctx, cfg);
    QuietPut(u, m, EffectsIn(u, m, ctx, cfg).value, l, cfg.roots);
  }

  lemma {:induction false} LookupsSame(u: View, l: Log, roots: Roots)
    ensures SameLookups(u, u, l, roots)
  {
  }

  lemma {:induction false} LookupsTwice(u: View, m: View, t: View, l: Log, roots: Roots)
    requires SameLookups(u, m, l, roots) && SameLookups(m, t, l, roots)
    ensures SameLookups(u, t, l, roots)
  {
  }

  lemma {:induction false} QuietLast(v: View, b: Block, i: nat, n: nat, cfg: Config, t: View) returns (m: View)
    requires FirstTime(v, b) && i < n <= |b.logs| && Undisturbed(b, i, cfg) && RecordLogs(v, b, n, cfg) == Ok(t)
    ensures RecordLogs(v, b, n - 1, cfg) == Ok(m) && SameLookups(m, t, b.logs[i], cfg.roots)
  {
    LastLog(v, b, n, cfg);
    m := RecordLogs(v, b, n - 1, cfg).value;
    StillAbsent(v, b, n - 1, n - 1, cfg);
    QuietStep(m, b.logs[i], b.logs[n - 1], b.context, cfg);
  }

  lemma {:induction false} QuietRest(v: View, b: Block, i: nat, n: nat, cfg: Config, u: View, t: View)
    requires FirstTime(v, b) && i < |b.logs| && i <= n <= |b.logs| && Undisturbed(b, i, cfg)
    requires RecordLogs(v, b, i, cfg) == Ok(u) && RecordLogs(v, b, n, cfg) == Ok(t)
    ensures SameLookups(u, t, b.logs[i], cfg.roots)
  {
    if i < n {
      var m := QuietLast(v, b, i, n, cfg, t);
      QuietRest(v, b, i, n - 1, cfg, u, m);
      LookupsTwice(u, m, t, b.logs[i], cfg.roots);
    } else {
      LookupsSame(u, b.logs[i], cfg.roots);
    }
  }

  /** Such a block has settled, so recording it again changes nothing. */
  lemma {:induction false} WellOrderedSettles(v: View, b: Block, cfg: Config)
    requires FirstTime(v, b) && WellOrdered(b, cfg) && RecordLogs(v, b, |b.logs|, cfg).Ok?
    ensures Settled(v, b, cfg)
  {
    var t := RecordLogs(v, b, |b.logs|, cfg).value;
    forall i | 0 <= i < |b.logs| ensures SettledAt(v, b, i, cfg) {
      Prefix(v, b, i, |b.logs|, cfg);
      QuietRest(v, b, i, |b.logs|, cfg, RecordLogs(v, b, i, cfg).value, t);
    }
  }

  // ---------------------------------------------------------------- the store again

  lemma {:induction false} FirstTimeThere(kept: seq<Block>, b: Block, cfg: Config)
    requires Legal(kept + [b]) && ViewOf(kept, cfg).Ok? && DistinctKeys(b)
    ensures FirstTime(Started(ViewOf(kept, cfg).value, b.header), b)
  {
    ChainAnchored(kept, cfg);
    forall l | l in b.logs ensures KeyAbsent(Started(ViewOf(kept, cfg).value, b.header), l.Key()) {
      KeysElsewhere(ViewOf(kept, cfg).value, kept, b, l);
    }
  }

  /** No row of a chain ending in b rivals b, so opening b again leaves every row in place. */
  lemma {:induction false} NoRivals(kept: seq<Block>, b: Block, cfg: Config)
    requires Legal(kept + [b]) && ViewOf(kept + [b], cfg).Ok?
    ensures var t := ViewOf(kept + [b], cfg).value;
      Started(WithoutRivalsView(t, b.header.number, b.header.hash), b.header) == t
  {
    var chain := kept + [b];
    ChainAnchored(chain, cfg);
    BlocksListed(chain, cfg);
    assert chain[|kept|] == b;
    var t := ViewOf(chain, cfg).value;
    NoRivalFacts(t.events, kept, b);
    NoRivalFacts(t.tokens, kept, b);
    NoRivalFacts(t.curves, kept, b);
    NoRivalFacts(t.trades, kept, b);
    NoRivalFacts(t.graduations, kept, b);
    NoRivalFacts(t.liquidity, kept, b);
    forall h | h in t.blocks ensures !(t.blocks[h].block == b.header.number && t.blocks[h].hash != b.header.hash) {
      assert HasHeader(chain, t.blocks[h]);
      assert forall i | 0 <= i < |kept| :: chain[i].header.number < b.header.number;
    }
  }

  lemma {:induction false} NoRivalFacts<T>(facts: Facts<LogKey, T>, kept: seq<Block>, b: Block)
    requires Legal(kept + [b]) && Anchored(facts, kept + [b])
    ensures WithoutRivals(facts, b.header.number, b.header.hash) == facts
  {
    var chain := kept + [b];
    assert chain[|kept|] == b;
    assert forall i | 0 <= i < |kept| :: chain[i].header.number < b.header.number;
    forall k | k in facts ensures !(facts[k].block == b.header.number && facts[k].hash != b.header.hash) {
      assert From(chain, k, facts[k].block, facts[k].hash);
    }
  }

  lemma {:induction false} OwnRowsRestate(o: State, v: View, b: Block, l: Log, cfg: Config)
    requires FirstTime(v, b) && RecordLogs(v, b, |b.logs|, cfg).Ok? && l in b.logs
    requires Backed(o, cfg.roots) && Seen(o).events == RecordLogs(v, b, |b.logs|, cfg).value.events
    ensures Restates(o, l, cfg.roots)
  {
    var i :| 0 <= i < |b.logs| && b.logs[i] == l;
    Persists(v, b, i, |b.logs|, cfg);
    var u := RecordLogs(v, b, i, cfg).value;
    EffectsEvent(l, TrustedLog(u, l, cfg.roots), PoolOwner(u.curves, u.tokens, l.address), b.context, cfg);
    LastLogProvenance(v, b, i, cfg);
    var k := l.Key();
    if k in o.cto.records && o.cto.records[k].canonical && o.cto.records[k].data.Treasury? {
      assert k in Canonical(o.events);
    }
  }

  lemma {:induction false} LastLogProvenance(v: View, b: Block, i: nat, cfg: Config)
    requires i < |b.logs| && RecordLogs(v, b, |b.logs|, cfg).Ok?
    ensures b.logs[i].block == b.header.number && b.logs[i].blockHash == b.header.hash
  {
    Prefix(v, b, i + 1, |b.logs|, cfg);
    LastLog(v, b, i + 1, cfg);
  }

  /** Applying the last block again succeeds and leaves every canonical row in place exactly when
      the lookups of its logs have settled; the derived tables then stay the same too. */
  lemma {:induction false} ReapplyIsIdleIff(x: Index, b: Block, cfg: Config)
    requires Faithful(x, cfg) && Extends(x.survivors, b) && DistinctKeys(b) && Applied(x.state, b, cfg).Ok?
    ensures var kept, once := x.survivors[..Cut(x.survivors, b.header.number)], Applied(x.state, b, cfg).value;
      ViewOf(kept, cfg).Ok? && RecordLogs(Started(ViewOf(kept, cfg).value, b.header), b, |b.logs|, cfg).Ok?
      && (Settled(Started(ViewOf(kept, cfg).value, b.header), b, cfg) <==>
          Applied(once, b, cfg).Ok? && Seen(Applied(once, b, cfg).value) == Seen(once))
      && (Applied(once, b, cfg).Ok? && Seen(Applied(once, b, cfg).value) == Seen(once) ==>
          SeenDerived(Applied(once, b, cfg).value) == SeenDerived(once))
  {
    var kept, once := x.survivors[..Cut(x.survivors, b.header.number)], Applied(x.state, b, cfg).value;
    AppliedFaithful(x, b, cfg);
    assert (kept + [b])[..|kept|] == kept && (kept + [b])[|kept|] == b;
    FirstTimeThere(kept, b, cfg);
    NoRivals(kept, b, cfg);
    var v, o := Started(ViewOf(kept, cfg).value, b.header), BlockOpened(once, b.header);
    var t := Seen(once);
    SeenBlockOpened(once, b.header);
    BackedOpened(once, b.header, cfg.roots);
    forall l | l in b.logs ensures Restates(o, l, cfg.roots) { OwnRowsRestate(o, v, b, l, cfg); }
    LogsRefine(o, b, |b.logs|, cfg);
    ReapplyIff(v, b, cfg);
    AppliedDerives(x.state, b, cfg);
    AppliedSees(once, b, cfg);
    if Applied(once, b, cfg).Ok? { AppliedDerives(once, b, cfg); }
  }

  /** A second Apply succeeds and keeps the view exactly when recording its logs does. */
  lemma {:induction false} AppliedSees(once: State, b: Block, cfg: Config)
    requires Refusal(b, cfg).None? && !Ambiguous(CtoHistory(Seen(once)))
    requires match LogsInserted(BlockOpened(once, b.header), b, |b.logs|, cfg)
             case Err(e) => RecordLogs(Seen(once), b, |b.logs|, cfg) == Err(e)
             case Ok(u) => RecordLogs(Seen(once), b, |b.logs|, cfg) == Ok(Seen(u))
    ensures RecordLogs(Seen(once), b, |b.logs|, cfg) == Ok(Seen(once)) <==>
      Applied(once, b, cfg).Ok? && Seen(Applied(once, b, cfg).value) == Seen(once)
  {
    match LogsInserted(BlockOpened(once, b.header), b, |b.logs|, cfg) {
      case Err(_) =>
      case Ok(u) =>
        if Rebuild(u, cfg).Ok? {
          RebuildKeeps(u, cfg);
          CheckpointUnseen(Rebuild(u, cfg).value, Some(Checkpoint(b.header.number, Some(b.header.hash))), cfg.roots);
        }
    }
  }

  const EARLY_SWAP: Log := Log(1, 1, 5, 0, 0, 9, Swap(1, -1))
  const LATE_LAUNCH: Log := Log(1, 1, 5, 0, 1, 3, Launch(4, 7, 8, 100, 80, 9))
  const EARLY_BLOCK: Block :=
    Block(Header(1, 1, 0, 0), [EARLY_SWAP, LATE_LAUNCH], Context(map[7 := Metadata("T", "T", 18)], map[]))
  const PLAIN: Config := Config(Roots(1, 2, 3), {}, 0, (a: nat, b: nat) => 0)

  /** A pool swap logged before its token's launch in the same block is skipped the first time,
      but its pool is known the second time. */
  lemma {:induction false} EarlySwapReappears(v: View)
    requires FirstTime(v, EARLY_BLOCK) && PoolOwner(v.curves, v.tokens, 9).None?
    ensures RecordLogs(v, EARLY_BLOCK, 2, PLAIN).Ok? && !Settled(v, EARLY_BLOCK, PLAIN)
  {
    var b := EARLY_BLOCK;
    assert EffectsIn(v, EARLY_SWAP, b.context, PLAIN).Ok?;
    var u := PutAll(v, EARLY_SWAP, EffectsIn(v, EARLY_SWAP, b.context, PLAIN).value);
    assert RecordLogs(v, b, 0, PLAIN) == Ok(v);
    assert RecordLogs(v, b, 1, PLAIN) == Ok(u);
    var w := EffectsIn(u, LATE_LAUNCH, b.context, PLAIN).value;
    var t := PutAll(u, LATE_LAUNCH, w);
    assert RecordLogs(v, b, 2, PLAIN) == Ok(t);
    HasOwner(t, LATE_LAUNCH.Key());
    assert !SameLookups(v, t, b.logs[0], PLAIN.roots);
    assert !SettledAt(v, b, 0, PLAIN);
  }

  lemma {:induction false} HasOwner(t: View, k: LogKey)
    requires k in t.curves && k in t.tokens && t.tokens[k].data.token == t.curves[k].data.token
    ensures PoolOwner(t.curves, t.tokens, t.curves[k].data.pool).Some?
  {
    var keys := set j | j in t.curves && t.curves[j].data.pool == t.curves[k].data.pool
                        && exists s | s in t.tokens :: t.tokens[s].data.token == t.curves[j].data.token;
    assert k in keys;
  }
}
