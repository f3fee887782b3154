/** Which log of which block each canonical row was made from. */
module Origins {
  import opened Wrappers
  import opened Chain
  import opened Tables
  import opened Views

  ghost predicate InBlocks(blocks: seq<Block>, l: Log) {
    exists i | 0 <= i < |blocks| :: l in blocks[i].logs
  }

  lemma {:induction false} InBlocksGrows(blocks: seq<Block>, b: Block)
    ensures forall l :: InBlocks(blocks + [b], l) <==> InBlocks(blocks, l) || l in b.logs
  {
    forall l ensures InBlocks(blocks + [b], l) <==> InBlocks(blocks, l) || l in b.logs {
      if InBlocks(blocks, l) {
        var i :| 0 <= i < |blocks| && l in blocks[i].logs;
        assert (blocks + [b])[i] == blocks[i];
      }
      if l in b.logs { assert (blocks + [b])[|blocks|] == b; }
    }
  }

  ghost predicate EventLogged(blocks: seq<Block>, e: Event) {
    exists l :: InBlocks(blocks, l) && l.address == e.address && l.payload == e.payload
  }

  ghost predicate TokenLogged(blocks: seq<Block>, token: Address) {
    exists l :: InBlocks(blocks, l) && l.payload.Launch? && l.payload.token == token
  }

  ghost predicate CurveLogged(blocks: seq<Block>, curve: Address, pool: Address) {
    exists l :: InBlocks(blocks, l) && l.payload.Launch? && l.payload.curve == curve && l.payload.pool == pool
  }

  /** Events are logs of the chain, and token and curve rows are its launches. */
  ghost predicate RowsLogged(v: View, blocks: seq<Block>) {
    (forall k | k in v.events :: EventLogged(blocks, v.events[k].data))
    && (forall k | k in v.tokens :: TokenLogged(blocks, v.tokens[k].data.token))
    && (forall k | k in v.curves :: CurveLogged(blocks, v.curves[k].data.curve, v.curves[k].data.pool))
  }

  lemma {:induction false} WritesLogged(l: Log, trusted: bool, owner: Option<Address>, ctx: Context, cfg: Config,
                                        blocks: seq<Block>)
    requires InBlocks(blocks, l) && Effects(l, trusted, owner, ctx, cfg).Ok?
    ensures var w := Effects(l, trusted, owner, ctx, cfg).value;
      (w.event.Some? ==> EventLogged(blocks, w.event.value))
      && (w.token.Some? ==> TokenLogged(blocks, w.token.value.token))
      && (w.curve.Some? ==> CurveLogged(blocks, w.curve.value.curve, w.curve.value.pool))
  {
  }

  lemma {:induction false} LogsLogged(v: View, b: Block, n: nat, cfg: Config, blocks: seq<Block>)
    requires n <= |b.logs| && RowsLogged(v, blocks) && RecordLogs(v, b, n, cfg).Ok?
    requires forall l | l in b.logs :: InBlocks(blocks, l)
    ensures RowsLogged(RecordLogs(v, b, n, cfg).value, blocks)
  {
    if n > 0 {
      LogsLogged(v, b, n - 1, cfg, blocks);
      var u, l := RecordLogs(v, b, n - 1, cfg).value, b.logs[n - 1];
      WritesLogged(l, TrustedLog(u, l, cfg.roots), PoolOwner(u.curves, u.tokens, l.address), b.context, cfg, blocks);
    }
  }

  lemma {:induction false} RowsGrow(v: View, blocks: seq<Block>, b: Block)
    requires RowsLogged(v, blocks)
    ensures RowsLogged(v, blocks + [b])
  {
    InBlocksGrows(blocks, b);
    forall k | k in v.events ensures EventLogged(blocks + [b], v.events[k].data) {
      assert EventLogged(blocks, v.events[k].data);
    }
    forall k | k in v.tokens ensures TokenLogged(blocks + [b], v.tokens[k].data.token) {
      assert TokenLogged(blocks, v.tokens[k].data.token);
    }
    forall k | k in v.curves ensures CurveLogged(blocks + [b], v.curves[k].data.curve, v.curves[k].data.pool) {
      assert CurveLogged(blocks, v.curves[k].data.curve, v.curves[k].data.pool);
    }
  }

  lemma {:induction false} ChainLogged(blocks: seq<Block>, cfg: Config)
    requires ViewOf(blocks, cfg).Ok?
    ensures RowsLogged(ViewOf(blocks, cfg).value, blocks)
    decreases |blocks|
  {
    if blocks != [] {
      var init, b := blocks[..|blocks| - 1], blocks[|blocks| - 1];
      assert blocks == init + [b];
      ChainLogged(init, cfg);
      RowsGrow(ViewOf(init, cfg).value, init, b);
      InBlocksGrows(init, b);
      LogsLogged(Started(ViewOf(init, cfg).value, b.header), b, |b.logs|, cfg, blocks);
    }
  }
}
