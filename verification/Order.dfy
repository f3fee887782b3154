/** Canonical chain order and the one ascending enumeration of a finite set of positions. */
module Order {
  import opened Chain

  datatype Pos = Pos(block: nat, txIndex: nat, index: nat, tx: Hash)

  /** ORDER BY block_number, transaction_index, log_index, transaction_hash. */
  predicate Less(a: Pos, b: Pos) {
    a.block < b.block || (a.block == b.block &&
      (a.txIndex < b.txIndex || (a.txIndex == b.txIndex &&
        (a.index < b.index || (a.index == b.index && a.tx < b.tx)))))
  }

  ghost predicate Ascending(s: seq<Pos>) {
    forall i, j | 0 <= i < j < |s| :: Less(s[i], s[j])
  }

  lemma {:induction false} LeastExists(s: set<Pos>)
    requires s != {}
    ensures exists p :: p in s && forall q | q in s && q != p :: Less(p, q)
  {
    var p :| p in s;
    if s == {p} {
    } else {
      var rest := s - {p};
      LeastExists(rest);
      var m :| m in rest && forall q | q in rest && q != m :: Less(m, q);
      var least := if Less(p, m) then p else m;
      assert forall q | q in s && q != least :: Less(least, q) by {
        assert forall q | q in s :: q == p || q in rest;
      }
    }
  }

  function Least(s: set<Pos>): (p: Pos)
    requires s != {}
    ensures p in s && forall q | q in s && q != p :: Less(p, q)
  {
    LeastExists(s);
    var p :| p in s && forall q | q in s && q != p :: Less(p, q);
    p
  }

  /** What an ORDER BY over distinct positions returns. */
  function Sort(s: set<Pos>): (r: seq<Pos>)
    ensures Ascending(r)
    ensures forall p :: p in r <==> p in s
    decreases |s|
  {
    if s == {} then []
    else
      var p := Least(s);
      var rest := Sort(s - {p});
      var r := [p] + rest;
      assert Ascending(r) by {
        forall i, j | 0 <= i < j < |r| ensures Less(r[i], r[j]) {
          assert r[j] == rest[j - 1] && r[j] in rest;
        }
      }
      r
  }

  /** Any two ascending enumerations of the same positions are the same sequence. */
  lemma {:induction false} AscendingUnique(a: seq<Pos>, b: seq<Pos>)
    requires Ascending(a) && Ascending(b)
    requires forall p :: p in a <==> p in b
    ensures a == b
  {
    assert b == [] || b[0] in b;
    assert a == [] || a[0] in a;
    if a != [] {
      assert a[0] == b[0];
      var a', b' := a[1..], b[1..];
      forall p ensures p in a' <==> p in b' {
        if p in a' { var i :| 0 <= i < |a'| && a'[i] == p; assert a[i + 1] == p && Less(a[0], p); assert p in a; }
        if p in b' { var i :| 0 <= i < |b'| && b'[i] == p; assert b[i + 1] == p && Less(b[0], p); assert p in b; }
      }
      AscendingUnique(a', b');
      assert a == [a[0]] + a' && b == [b[0]] + b';
    }
  }
}
