/** Keyset pagination. A page is the first `limit` rows that a WHERE clause leaves after the cursor;
    one extra row tells whether there is a next page. Walking the pages yields every row exactly
    once, for every choice of limits, exactly when the WHERE clause agrees with the ORDER BY. */
module Pager {
  import opened Wrappers
  import opened Chain
  import Numeric
  import Sorting

  /** Does the row come after the cursor's row? */
  type Where<!T> = (T, T) -> bool

  function Matching<T>(list: seq<T>, where: Where<T>, cursor: Option<T>): seq<T> {
    match cursor
    case None => list
    case Some(c) => Sorting.Select(list, x => where(c, x))
  }

  datatype Page<T> = Page(items: seq<T>, next: Option<T>)

  function PageOf<T>(list: seq<T>, where: Where<T>, cursor: Option<T>, limit: nat): Page<T>
    requires limit > 0
  {
    var rows := Matching(list, where, cursor);
    if |rows| > limit then Page(rows[..limit], Some(rows[limit - 1])) else Page(rows, None)
  }

  /** One request over rows in ORDER BY order: LIMIT limit + 1, scan, truncate. */
  method FetchPage<T>(list: seq<T>, where: Where<T>, cursor: Option<T>, limit: nat) returns (page: Page<T>)
    requires limit > 0
    ensures page == PageOf(list, where, cursor, limit)
  {
    var rows := Matching(list, where, cursor);
    var items: seq<T> := [];
    var i := 0;
    while i < |rows| && i < limit + 1
      invariant i <= |rows| && i <= limit + 1 && items == rows[..i]
    {
      items := items + [rows[i]];
      i := i + 1;
    }
    if |items| > limit {
      items := items[..limit];
      return Page(items, Some(items[|items| - 1]));
    }
    return Page(items, None);
  }

  predicate Positive(limits: seq<nat>) {
    forall l | l in limits :: l > 0
  }

  /** Follow next cursors with one limit per request; done when a page has no next cursor. */
  function Walk<T>(list: seq<T>, where: Where<T>, cursor: Option<T>, limits: seq<nat>): (seq<T>, bool)
    requires Positive(limits)
    decreases |limits|
  {
    if limits == [] then ([], false)
    else
      assert limits[0] in limits;
      var page := PageOf(list, where, cursor, limits[0]);
      match page.next
      case None => (page.items, true)
      case Some(c) =>
        assert Positive(limits[1..]) by { assert forall l | l in limits[1..] :: l in limits; }
        var rest := Walk(list, where, Some(c), limits[1..]);
        (page.items + rest.0, rest.1)
  }

  /** These requests yield the list from its start, each unfinished one at least one row, and
      finish only with all of it. */
  ghost predicate CompleteFor<T>(list: seq<T>, where: Where<T>, limits: seq<nat>)
    requires Positive(limits)
  {
    var w := Walk(list, where, None, limits);
    |w.0| <= |list| && w.0 == list[..|w.0|] && (if w.1 then w.0 == list else |limits| <= |w.0| < |list| || limits == [])
  }

  ghost predicate Complete<T>(list: seq<T>, where: Where<T>) {
    forall limits | Positive(limits) :: CompleteFor(list, where, limits)
  }

  /** Strictly after, for every row that can become a cursor. */
  ghost predicate Agrees<T>(list: seq<T>, where: Where<T>) {
    forall i, j | 0 <= i < |list| - 1 && 0 <= j < |list| :: where(list[i], list[j]) <==> i < j
  }

  // ---------------------------------------------------------------- agreement is enough

  lemma {:induction false} SelectSuffix<T>(list: seq<T>, keep: T -> bool, k: nat)
    requires k <= |list| && forall j | 0 <= j < |list| :: keep(list[j]) <==> j >= k
    ensures Sorting.Select(list, keep) == list[k..]
    decreases |list|
  {
    if k == |list| {
      NoneSelected(list, keep);
    } else {
      var init, last := list[..|list| - 1], list[|list| - 1];
      assert list == init + [last];
      SelectSuffix(init, keep, k);
    }
  }

  lemma {:induction false} NoneSelected<T>(list: seq<T>, keep: T -> bool)
    requires forall j | 0 <= j < |list| :: !keep(list[j])
    ensures Sorting.Select(list, keep) == []
    decreases |list|
  {
    if list != [] { NoneSelected(list[..|list| - 1], keep); }
  }

  lemma {:induction false} NoneMatch<T>(list: seq<T>, where: Where<T>, c: T)
    requires forall j | 0 <= j < |list| :: !where(c, list[j])
    ensures Matching(list, where, Some(c)) == []
  {
    NoneSelected(list, x => where(c, x));
  }

  /** The cursor that stands after k rows. */
  function CursorAt<T>(list: seq<T>, k: nat): Option<T>
    requires k <= |list|
  {
    if k == 0 then None else Some(list[k - 1])
  }

  lemma {:induction false} MatchingSuffix<T>(list: seq<T>, where: Where<T>, k: nat)
    requires Agrees(list, where) && k < |list|
    ensures Matching(list, where, CursorAt(list, k)) == list[k..]
  {
    if k > 0 {
      SelectSuffix(list, x => where(list[k - 1], x), k);
    }
  }

  lemma {:induction false} PageAt<T>(list: seq<T>, where: Where<T>, k: nat, limit: nat)
    requires Agrees(list, where) && k < |list| && limit > 0
    ensures PageOf(list, where, CursorAt(list, k), limit)
         == if |list| - k > limit then Page(list[k..k + limit], CursorAt(list, k + limit)) else Page(list[k..], None)
  {
    MatchingSuffix(list, where, k);
  }

  /** A walk that starts after k rows yields the next ones. */
  ghost predicate Yields<T>(list: seq<T>, k: nat, limits: seq<nat>, w: (seq<T>, bool)) {
    k + |w.0| <= |list| && w.0 == list[k..k + |w.0|]
    && (if w.1 then k + |w.0| == |list| else k + |w.0| < |list| && |limits| <= |w.0|)
  }

  lemma {:induction false} WalkFrom<T>(list: seq<T>, where: Where<T>, k: nat, limits: seq<nat>)
    requires Agrees(list, where) && Positive(limits) && k < |list|
    ensures Yields(list, k, limits, Walk(list, where, CursorAt(list, k), limits))
    decreases |limits|
  {
    if limits != [] {
      var l, rest := limits[0], limits[1..];
      assert l in limits && Positive(rest) by { assert forall m | m in rest :: m in limits; }
      PageAt(list, where, k, l);
      if |list| - k > l {
        WalkFrom(list, where, k + l, rest);
        Glue(list, k, l, limits, Walk(list, where, CursorAt(list, k + l), rest));
      }
    }
  }

  lemma {:induction false} Glue<T>(list: seq<T>, k: nat, l: nat, limits: seq<nat>, w: (seq<T>, bool))
    requires limits != [] && l > 0 && k + l < |list| && Yields(list, k + l, limits[1..], w)
    ensures Yields(list, k, limits, (list[k..k + l] + w.0, w.1))
  {
  }

  // ---------------------------------------------------------------- and needed

  lemma {:induction false} SelectLength<T>(list: seq<T>, keep: T -> bool)
    ensures |Sorting.Select(list, keep)| <= |list|
    decreases |list|
  {
    if list != [] { SelectLength(list[..|list| - 1], keep); }
  }

  lemma {:induction false} WalkTwice<T>(list: seq<T>, where: Where<T>, i: nat)
    requires i < |list| - 1
    ensures Walk(list, where, None, [i + 1, |list|]) == (list[..i + 1] + Matching(list, where, Some(list[i])), true)
  {
    var limits := [i + 1, |list|];
    assert limits[1..] == [|list|];
    SelectLength(list, x => where(list[i], x));
    assert PageOf(list, where, None, i + 1) == Page(list[..i + 1], Some(list[i]));
    WalkOnce(list, where, Some(list[i]), |list|);
  }

  lemma {:induction false} WalkOnce<T>(list: seq<T>, where: Where<T>, cursor: Option<T>, limit: nat)
    requires limit > 0 && |Matching(list, where, cursor)| <= limit
    ensures Walk(list, where, cursor, [limit]) == (Matching(list, where, cursor), true)
  {
  }

  /** The rows behind a cursor decide which rows its clause lets through. */
  lemma {:induction false} BehindCursor<T(!new)>(list: seq<T>, where: Where<T>, i: nat)
    requires Sorting.Distinct(list) && i < |list| - 1
    requires Matching(list, where, Some(list[i])) == list[i + 1..]
    ensures forall j | 0 <= j < |list| :: where(list[i], list[j]) <==> i < j
  {
    Sorting.SelectMembers(list, x => where(list[i], x));
    forall j | 0 <= j < |list| ensures where(list[i], list[j]) <==> i < j {
      assert list[j] in list;
      assert where(list[i], list[j]) <==> list[j] in list[i + 1..];
      if j > i { assert list[i + 1..][j - i - 1] == list[j]; }
      if list[j] in list[i + 1..] {
        var k :| 0 <= k < |list| - i - 1 && list[i + 1..][k] == list[j];
        assert list[k + i + 1] == list[j];
      }
    }
  }

  /** A walk of two requests: the second one asks for everything after row i. */
  lemma {:induction false} CompleteAgreesAt<T(!new)>(list: seq<T>, where: Where<T>, i: nat)
    requires Sorting.Distinct(list) && i < |list| - 1 && CompleteFor(list, where, [i + 1, |list|])
    ensures forall j | 0 <= j < |list| :: where(list[i], list[j]) <==> i < j
  {
    WalkTwice(list, where, i);
    var rows := Matching(list, where, Some(list[i]));
    assert rows == (list[..i + 1] + rows)[i + 1..];
    BehindCursor(list, where, i);
  }

  /** Walking the pages is complete for all limits exactly when WHERE agrees with the order. */
  lemma {:induction false} CompleteIffAgrees<T(!new)>(list: seq<T>, where: Where<T>)
    requires Sorting.Distinct(list)
    ensures Complete(list, where) <==> Agrees(list, where)
  {
    if Complete(list, where) {
      forall i, j | 0 <= i < |list| - 1 && 0 <= j < |list| ensures where(list[i], list[j]) <==> i < j {
        assert Positive([i + 1, |list|]);
        CompleteAgreesAt(list, where, i);
      }
    }
    if Agrees(list, where) {
      forall limits | Positive(limits) ensures CompleteFor(list, where, limits) {
        if list == [] {
          assert limits != [] ==> PageOf(list, where, None, limits[0]) == Page([], None) by {
            assert limits != [] ==> limits[0] in limits;
          }
        } else {
          WalkFrom(list, where, 0, limits);
          assert Yields(list, 0, limits, Walk(list, where, None, limits));
        }
      }
    }
  }

  /** A clause that is the order itself pages completely. */
  lemma {:induction false} SameOrderComplete<T(!new)>(list: seq<T>, less: (T, T) -> bool, where: Where<T>)
    requires Sorting.StrictOrder(less) && Sorting.Ascending(list, less)
    requires forall a, b | a in list && b in list :: where(a, b) <==> less(a, b)
    ensures Complete(list, where)
  {
    forall i, j | 0 <= i < |list| && 0 <= j < |list| ensures less(list[i], list[j]) <==> i < j {
      assert i < j ==> less(list[i], list[j]);
      assert j < i ==> less(list[j], list[i]);
      assert i == j ==> !less(list[i], list[j]);
    }
    forall i, j | 0 <= i < |list| - 1 && 0 <= j < |list| ensures where(list[i], list[j]) <==> i < j {
      assert list[i] in list && list[j] in list;
    }
    assert Sorting.Distinct(list) by {
      forall i, j | 0 <= i < j < |list| ensures list[i] != list[j] { assert less(list[i], list[j]); }
    }
    CompleteIffAgrees(list, where);
  }
}
