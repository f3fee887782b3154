/** Insertion sort for any strict order, and the fact that a sorted list is determined by its members. */
module Sorting {
  ghost predicate StrictOrder<T(!new)>(less: (T, T) -> bool) {
    (forall a, b :: less(a, b) ==> !less(b, a)) && forall a, b, c :: less(a, b) && less(b, c) ==> less(a, c)
  }

  ghost predicate Ascending<T>(s: seq<T>, less: (T, T) -> bool) {
    forall i, j | 0 <= i < j < |s| :: less(s[i], s[j])
  }

  /** The order compares any two different members. */
  ghost predicate Compares<T(!new)>(s: seq<T>, less: (T, T) -> bool) {
    forall a, b | a in s && b in s && a != b :: less(a, b) || less(b, a)
  }

  ghost predicate Distinct<T>(s: seq<T>) {
    forall i, j | 0 <= i < j < |s| :: s[i] != s[j]
  }

  /** Put an element behind everything it does not precede. */
  function Insert<T>(s: seq<T>, e: T, less: (T, T) -> bool): seq<T>
    decreases |s|
  {
    if s == [] || !less(e, s[|s| - 1]) then s + [e]
    else Insert(s[..|s| - 1], e, less) + [s[|s| - 1]]
  }

  function Sort<T>(s: seq<T>, less: (T, T) -> bool): seq<T>
    decreases |s|
  {
    if s == [] then [] else Insert(Sort(s[..|s| - 1], less), s[|s| - 1], less)
  }

  lemma {:induction false} Members<T>(s: seq<T>, e: T)
    ensures forall x :: x in s + [e] <==> x in s || x == e
  {
  }

  lemma {:induction false} InsertMembers<T>(s: seq<T>, e: T, less: (T, T) -> bool)
    ensures forall x :: x in Insert(s, e, less) <==> x in s || x == e
    ensures |Insert(s, e, less)| == |s| + 1
    decreases |s|
  {
    if s != [] && less(e, s[|s| - 1]) {
      InsertMembers(s[..|s| - 1], e, less);
      Members(s[..|s| - 1], s[|s| - 1]);
      assert s == s[..|s| - 1] + [s[|s| - 1]];
    }
  }

  lemma {:induction false} InsertPermutes<T>(s: seq<T>, e: T, less: (T, T) -> bool)
    ensures multiset(Insert(s, e, less)) == multiset(s) + multiset{e}
    decreases |s|
  {
    if s != [] && less(e, s[|s| - 1]) {
      InsertPermutes(s[..|s| - 1], e, less);
      assert s == s[..|s| - 1] + [s[|s| - 1]];
    }
  }

  lemma {:induction false} SortPermutes<T>(s: seq<T>, less: (T, T) -> bool)
    ensures multiset(Sort(s, less)) == multiset(s)
    decreases |s|
  {
    if s != [] {
      SortPermutes(s[..|s| - 1], less);
      InsertPermutes(Sort(s[..|s| - 1], less), s[|s| - 1], less);
      assert s == s[..|s| - 1] + [s[|s| - 1]];
    }
  }

  lemma {:induction false} DistinctCounts<T>(s: seq<T>, x: T)
    requires Distinct(s)
    ensures multiset(s)[x] == if x in s then 1 else 0
    decreases |s|
  {
    if s != [] {
      var init, last := s[..|s| - 1], s[|s| - 1];
      assert s == init + [last];
      DistinctCounts(init, x);
      assert last !in init;
    }
  }

  lemma {:induction false} InsertAscending<T(!new)>(s: seq<T>, e: T, less: (T, T) -> bool)
    requires StrictOrder(less) && Ascending(s, less)
    requires forall x | x in s :: less(x, e) || less(e, x)
    ensures Ascending(Insert(s, e, less), less)
    decreases |s|
  {
    if s == [] || !less(e, s[|s| - 1]) {
      forall i | 0 <= i < |s| ensures less(s[i], e) {
        assert s[i] in s && s[|s| - 1] in s;
      }
    } else {
      var init, last := s[..|s| - 1], s[|s| - 1];
      assert s == init + [last];
      InsertAscending(init, e, less);
      InsertMembers(init, e, less);
      forall x | x in Insert(init, e, less) ensures less(x, last) {
        if x != e { var i :| 0 <= i < |init| && init[i] == x; }
      }
    }
  }

  /** Sorting distinct comparable elements gives an ascending list of the same elements. */
  lemma {:induction false} Sorts<T(!new)>(s: seq<T>, less: (T, T) -> bool)
    requires StrictOrder(less) && Compares(s, less) && Distinct(s)
    ensures Ascending(Sort(s, less), less)
    ensures forall x :: x in Sort(s, less) <==> x in s
    ensures |Sort(s, less)| == |s|
    decreases |s|
  {
    if s != [] {
      var init, last := s[..|s| - 1], s[|s| - 1];
      assert s == init + [last];
      Members(init, last);
      assert last !in init;
      Sorts(init, less);
      InsertMembers(Sort(init, less), last, less);
      InsertAscending(Sort(init, less), last, less);
    }
  }

  lemma {:induction false} TailMembers<T(!new)>(a: seq<T>, less: (T, T) -> bool)
    requires StrictOrder(less) && Ascending(a, less) && a != []
    ensures forall x :: x in a[1..] <==> x in a && x != a[0]
  {
    forall x ensures x in a[1..] <==> x in a && x != a[0] {
      if x in a && x != a[0] { var i :| 0 <= i < |a| && a[i] == x; assert a[1..][i - 1] == x; }
      if x in a[1..] { var i :| 0 <= i < |a| - 1 && a[1..][i] == x; assert less(a[0], a[i + 1]); }
    }
  }

  /** Two ascending lists with the same members are the same list. */
  lemma {:induction false} Unique<T(!new)>(a: seq<T>, b: seq<T>, less: (T, T) -> bool)
    requires StrictOrder(less) && Ascending(a, less) && Ascending(b, less)
    requires forall x :: x in a <==> x in b
    ensures a == b
  {
    assert b == [] || b[0] in b;
    assert a == [] || a[0] in a;
    if a != [] {
      var i :| 0 <= i < |b| && b[i] == a[0];
      var j :| 0 <= j < |a| && a[j] == b[0];
      assert a[0] == b[0];
      TailMembers(a, less);
      TailMembers(b, less);
      Unique(a[1..], b[1..], less);
      assert a == [a[0]] + a[1..] && b == [b[0]] + b[1..];
    }
  }

  /** The sorted list is the one ascending list of the members, however they were listed. */
  lemma {:induction false} SortIs<T(!new)>(s: seq<T>, t: seq<T>, less: (T, T) -> bool)
    requires StrictOrder(less) && Compares(s, less) && Distinct(s) && Ascending(t, less)
    requires forall x :: x in s <==> x in t
    ensures Sort(s, less) == t
  {
    Sorts(s, less);
    Unique(Sort(s, less), t, less);
  }

  /** Map iteration visits some key next. */
  method AnyOf<T>(keys: set<T>) returns (k: T)
    requires keys != {}
    ensures k in keys
  {
    k :| k in keys;
  }

  // ---------------------------------------------------------------- sublists

  function Select<T>(s: seq<T>, keep: T -> bool): seq<T>
    decreases |s|
  {
    if s == [] then []
    else Select(s[..|s| - 1], keep) + (if keep(s[|s| - 1]) then [s[|s| - 1]] else [])
  }

  lemma {:induction false} SelectMembers<T(!new)>(s: seq<T>, keep: T -> bool)
    ensures forall x :: x in Select(s, keep) <==> x in s && keep(x)
    decreases |s|
  {
    if s != [] {
      var init, last := s[..|s| - 1], s[|s| - 1];
      SelectMembers(init, keep);
      assert s == init + [last];
    }
  }

  lemma {:induction false} SelectAscending<T(!new)>(s: seq<T>, keep: T -> bool, less: (T, T) -> bool)
    requires Ascending(s, less)
    ensures Ascending(Select(s, keep), less)
    decreases |s|
  {
    if s != [] {
      var init, last := s[..|s| - 1], s[|s| - 1];
      SelectAscending(init, keep, less);
      SelectMembers(init, keep);
      forall x | x in Select(init, keep) ensures less(x, last) { var i :| 0 <= i < |init| && init[i] == x; }
    }
  }

  lemma {:induction false} SelectAppend<T>(s: seq<T>, x: T, keep: T -> bool)
    ensures Select(s + [x], keep) == Select(s, keep) + (if keep(x) then [x] else [])
  {
    assert (s + [x])[..|s|] == s;
  }

  lemma {:induction false} SelectAll<T>(s: seq<T>, keep: T -> bool)
    requires forall x | x in s :: keep(x)
    ensures Select(s, keep) == s
    decreases |s|
  {
    if s != [] {
      var init, last := s[..|s| - 1], s[|s| - 1];
      assert s == init + [last];
      SelectAll(init, keep);
    }
  }

  /** Selecting twice is selecting what passes both; an agreed second test can replace both. */
  lemma {:induction false} SelectTwice<T>(s: seq<T>, first: T -> bool, second: T -> bool, both: T -> bool)
    requires forall x | x in s :: both(x) <==> first(x) && second(x)
    ensures Select(Select(s, first), second) == Select(s, both)
    decreases |s|
  {
    if s != [] {
      var init, last := s[..|s| - 1], s[|s| - 1];
      assert s == init + [last];
      SelectTwice(init, first, second, both);
      if first(last) { SelectAppend(Select(init, first), last, second); }
      assert Select(init, first) + [] == Select(init, first);
      assert Select(init, both) + [] == Select(init, both);
    }
  }
}
