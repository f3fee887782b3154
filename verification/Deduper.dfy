/** The realtime service's bounded memory of delivered logs: a FIFO set. */
module Deduper {
  import opened Wrappers
  import opened Chain

  /** A delivery: the chain log and whether this notification removes it. */
  datatype Key = Key(id: LogKey, removed: bool)

  /** The newest `n` elements of a history. */
  function Latest(history: seq<Key>, n: nat): seq<Key> {
    if |history| <= n then history else history[|history| - n..]
  }

  lemma {:induction false} LatestWithin(history: seq<Key>, n: nat)
    ensures forall k | k in Latest(history, n) :: k in history
  {
  }

  /** What has been accepted after one more delivery. */
  function After(accepted: seq<Key>, key: Key, capacity: nat): seq<Key> {
    if key in Latest(accepted, capacity) then accepted else accepted + [key]
  }

  class Deduper {
    const capacity: nat
    var seen: set<Key>
    var order: seq<Key>
    ghost var accepted: seq<Key>

    ghost predicate Valid()
      reads this
    {
      capacity > 0 && order == Latest(accepted, capacity)
      && (forall k :: k in seen <==> k in order)
      && (forall i, j | 0 <= i < j < |order| :: order[i] != order[j])
      && SpacedOut(accepted, capacity)
    }

    constructor (capacity: nat)
      ensures Valid() && this.capacity == (if capacity < 1 then 1 else capacity) && accepted == []
    {
      this.capacity := if capacity < 1 then 1 else capacity;
      seen, order, accepted := {}, [], [];
    }

    /** Accept: a delivery passes exactly when its key is not among the last `capacity` accepted. */
    method Accept(id: LogKey, removed: bool) returns (r: bool)
      requires Valid()
      modifies this
      ensures Valid()
      ensures r <==> Key(id, removed) !in Latest(old(accepted), capacity)
      ensures accepted == After(old(accepted), Key(id, removed), capacity)
    {
      var key := Key(id, removed);
      if key in seen { return false; }
      SpacingKept(accepted, capacity, key);
      if |order| == capacity {
        ShiftsOut(order, key);
        seen := seen - {order[0]};
        order := order[1..] + [key];
      } else {
        order := order + [key];
      }
      seen := seen + {key};
      accepted := accepted + [key];
      return true;
    }
  }

  lemma {:induction false} ShiftsOut(order: seq<Key>, key: Key)
    requires order != [] && key !in order && forall i, j | 0 <= i < j < |order| :: order[i] != order[j]
    ensures forall k :: k in order[1..] + [key] <==> (k in order && k != order[0]) || k == key
  {
    assert order == [order[0]] + order[1..];
    forall k ensures k in order[1..] + [key] <==> (k in order && k != order[0]) || k == key {
      if k in order[1..] { var i :| 0 <= i < |order| - 1 && order[1..][i] == k; assert order[i + 1] == k; }
    }
  }

  /** A key accepted twice was forgotten in between: at least `capacity` others came after it. */
  ghost predicate SpacedOut(accepted: seq<Key>, capacity: nat) {
    forall i, j | 0 <= i < j < |accepted| && accepted[i] == accepted[j] :: j - i > capacity
  }

  lemma {:induction false} SpacingKept(accepted: seq<Key>, capacity: nat, key: Key)
    requires SpacedOut(accepted, capacity) && key !in Latest(accepted, capacity)
    ensures SpacedOut(accepted + [key], capacity)
  {
    var latest := Latest(accepted, capacity);
    forall i | 0 <= i < |accepted| && |accepted| - i <= capacity ensures accepted[i] != key {
      assert latest[i - (|accepted| - |latest|)] == accepted[i];
    }
  }

  // ---------------------------------------------------------------- what consumers last heard

  /** What a whole stream of deliveries lets through. */
  function Accepts(deliveries: seq<Key>, capacity: nat): seq<Key>
    decreases |deliveries|
  {
    if deliveries == [] then []
    else After(Accepts(deliveries[..|deliveries| - 1], capacity), deliveries[|deliveries| - 1], capacity)
  }

  /** Whether the newest word on a log says it was removed. */
  function StateIn(keys: seq<Key>, id: LogKey): Option<bool>
    decreases |keys|
  {
    if keys == [] then None
    else if keys[|keys| - 1].id == id then Some(keys[|keys| - 1].removed)
    else StateIn(keys[..|keys| - 1], id)
  }

  ghost predicate SameStates(a: seq<Key>, b: seq<Key>) {
    forall id :: StateIn(a, id) == StateIn(b, id)
  }

  /** Consumers know the newest state of every log. */
  ghost predicate UpToDate(deliveries: seq<Key>, capacity: nat) {
    SameStates(Accepts(deliveries, capacity), deliveries)
  }

  /** This delivery returns its log to a state that is still remembered. */
  predicate Returns(deliveries: seq<Key>, key: Key, capacity: nat) {
    key in Latest(Accepts(deliveries, capacity), capacity) && StateIn(deliveries, key.id) == Some(!key.removed)
  }

  lemma {:induction false} StateStep(keys: seq<Key>, key: Key, id: LogKey)
    ensures StateIn(keys + [key], id) == if key.id == id then Some(key.removed) else StateIn(keys, id)
  {
    assert (keys + [key])[..|keys|] == keys;
  }

  lemma {:induction false} StateOf(keys: seq<Key>, key: Key)
    requires key in keys
    ensures StateIn(keys, key.id).Some?
    decreases |keys|
  {
    var init, last := keys[..|keys| - 1], keys[|keys| - 1];
    assert keys == init + [last];
    if last.id != key.id { StateOf(init, key); }
  }

  lemma {:induction false} AcceptsStep(deliveries: seq<Key>, key: Key, capacity: nat)
    ensures Accepts(deliveries + [key], capacity) == After(Accepts(deliveries, capacity), key, capacity)
  {
    assert (deliveries + [key])[..|deliveries|] == deliveries;
  }

  lemma {:induction false} BothGrow(a: seq<Key>, b: seq<Key>, key: Key)
    requires SameStates(a, b)
    ensures SameStates(a + [key], b + [key])
  {
    forall id ensures StateIn(a + [key], id) == StateIn(b + [key], id) {
      StateStep(a, key, id);
      StateStep(b, key, id);
    }
  }

  lemma {:induction false} OneGrows(a: seq<Key>, b: seq<Key>, key: Key)
    requires SameStates(a, b)
    ensures SameStates(a, b + [key]) <==> StateIn(b, key.id) == Some(key.removed)
  {
    forall id ensures StateIn(b + [key], id) == if key.id == id then Some(key.removed) else StateIn(b, id) {
      StateStep(b, key, id);
    }
  }

  lemma {:induction false} StatesStep(accepted: seq<Key>, deliveries: seq<Key>, key: Key, capacity: nat)
    requires SameStates(accepted, deliveries)
    ensures SameStates(After(accepted, key, capacity), deliveries + [key])
       <==> !(key in Latest(accepted, capacity) && StateIn(deliveries, key.id) == Some(!key.removed))
  {
    if key in Latest(accepted, capacity) {
      LatestWithin(accepted, capacity);
      StateOf(accepted, key);
      OneGrows(accepted, deliveries, key);
      var was := StateIn(deliveries, key.id).value;
      assert StateIn(deliveries, key.id) == Some(was);
      assert SameStates(After(accepted, key, capacity), deliveries + [key]) <==> was == key.removed;
    } else {
      BothGrow(accepted, deliveries, key);
    }
  }

  /** One more delivery leaves consumers up to date exactly when it is not such a return. */
  lemma {:induction false} UpToDateStep(deliveries: seq<Key>, key: Key, capacity: nat)
    requires UpToDate(deliveries, capacity)
    ensures UpToDate(deliveries + [key], capacity) <==> !Returns(deliveries, key, capacity)
  {
    AcceptsStep(deliveries, key, capacity);
    StatesStep(Accepts(deliveries, capacity), deliveries, key, capacity);
  }

  /** Consumers are up to date after every delivery. */
  ghost predicate AlwaysUpToDate(deliveries: seq<Key>, capacity: nat) {
    forall n | 0 <= n <= |deliveries| :: UpToDate(deliveries[..n], capacity)
  }

  predicate NeverReturns(deliveries: seq<Key>, capacity: nat) {
    forall n | 0 <= n < |deliveries| :: !Returns(deliveries[..n], deliveries[n], capacity)
  }

  lemma {:induction false} PrefixOf(init: seq<Key>, key: Key, n: nat)
    requires n <= |init|
    ensures (init + [key])[..n] == init[..n]
  {
  }

  lemma {:induction false} AlwaysStep(init: seq<Key>, key: Key, all: seq<Key>, capacity: nat)
    requires all == init + [key]
    ensures AlwaysUpToDate(all, capacity) <==> AlwaysUpToDate(init, capacity) && UpToDate(all, capacity)
    ensures AlwaysUpToDate(init, capacity) ==> UpToDate(init, capacity)
  {
    assert all[..|all|] == all && init[..|init|] == init;
    if AlwaysUpToDate(all, capacity) {
      forall n | 0 <= n <= |init| ensures UpToDate(init[..n], capacity) {
        PrefixOf(init, key, n);
        assert UpToDate(all[..n], capacity);
      }
    }
    if AlwaysUpToDate(init, capacity) && UpToDate(all, capacity) {
      forall n | 0 <= n <= |all| ensures UpToDate(all[..n], capacity) {
        if n <= |init| {
          PrefixOf(init, key, n);
          assert UpToDate(init[..n], capacity);
        } else {
          assert all[..n] == all;
        }
      }
    }
  }

  lemma {:induction false} NeverStep(init: seq<Key>, key: Key, capacity: nat)
    ensures NeverReturns(init + [key], capacity) <==> NeverReturns(init, capacity) && !Returns(init, key, capacity)
  {
    var all := init + [key];
    assert all[..|init|] == init && all[|init|] == key;
    forall n | 0 <= n < |init| ensures all[..n] == init[..n] && all[n] == init[n] { PrefixOf(init, key, n); }
  }

  /** Consumers stay up to date through a stream exactly when no delivery returns a log to a state
      that is among the last `capacity` accepted. */
  lemma {:induction false} UpToDateIff(deliveries: seq<Key>, capacity: nat)
    ensures AlwaysUpToDate(deliveries, capacity) <==> NeverReturns(deliveries, capacity)
    decreases |deliveries|
  {
    if deliveries == [] {
      assert UpToDate([], capacity);
      assert forall n | 0 <= n <= |deliveries| :: deliveries[..n] == [];
    } else {
      var init, last := deliveries[..|deliveries| - 1], deliveries[|deliveries| - 1];
      assert deliveries == init + [last];
      UpToDateIff(init, capacity);
      AlwaysStep(init, last, deliveries, capacity);
      NeverStep(init, last, capacity);
      if UpToDate(init, capacity) { UpToDateStep(init, last, capacity); }
    }
  }

  /** Other logs' deliveries, all different. */
  ghost predicate Others(others: seq<Key>, id: LogKey) {
    forall i | 0 <= i < |others| :: others[i].id != id && forall j | 0 <= j < i :: others[j] != others[i]
  }

  lemma {:induction false} OthersAccepted(first: seq<Key>, others: seq<Key>, id: LogKey, capacity: nat)
    requires Others(others, id) && forall k | k in first :: k.id == id
    requires Accepts(first, capacity) == first
    ensures Accepts(first + others, capacity) == first + others
    decreases |others|
  {
    if others == [] {
      assert first + others == first;
    } else {
      var init, last := others[..|others| - 1], others[|others| - 1];
      assert others == init + [last] && first + others == (first + init) + [last];
      OthersAccepted(first, init, id, capacity);
      AcceptsStep(first + init, last, capacity);
      LatestWithin(first + init, capacity);
    }
  }

  lemma {:induction false} FirstTwo(id: LogKey, capacity: nat)
    ensures Accepts([Key(id, false), Key(id, true)], capacity) == [Key(id, false), Key(id, true)]
  {
    AcceptsStep([], Key(id, false), capacity);
    AcceptsStep([Key(id, false)], Key(id, true), capacity);
    LatestWithin([Key(id, false)], capacity);
    assert [] + [Key(id, false)] == [Key(id, false)];
    assert [Key(id, false)] + [Key(id, true)] == [Key(id, false), Key(id, true)];
  }

  lemma {:induction false} FirstIsLatest(history: seq<Key>, n: nat)
    requires history != [] && forall i | 0 < i < |history| :: history[i] != history[0]
    ensures history[0] in Latest(history, n) <==> |history| <= n
  {
    if |history| > n {
      assert forall i | 0 <= i < n :: Latest(history, n)[i] == history[|history| - n + i];
    }
  }

  /** A log delivered, removed and, after other logs, delivered again: consumers keep it removed
      exactly when fewer than capacity - 1 others came between. */
  lemma {:induction false} RedeliveryHidden(others: seq<Key>, id: LogKey, capacity: nat)
    requires Others(others, id)
    ensures var first := [Key(id, false), Key(id, true)] + others;
      StateIn(Accepts(first + [Key(id, false)], capacity), id) == Some(|others| + 2 <= capacity)
  {
    var first := [Key(id, false), Key(id, true)] + others;
    FirstTwo(id, capacity);
    OthersAccepted([Key(id, false), Key(id, true)], others, id, capacity);
    AcceptsStep(first, Key(id, false), capacity);
    RemovedStill(others, id);
    StateStep(first, Key(id, false), id);
    forall i | 0 < i < |first| ensures first[i] != first[0] {
      if i >= 2 { assert first[i] == others[i - 2]; }
    }
    FirstIsLatest(first, capacity);
  }

  lemma {:induction false} RemovedStill(others: seq<Key>, id: LogKey)
    requires Others(others, id)
    ensures StateIn([Key(id, false), Key(id, true)] + others, id) == Some(true)
    decreases |others|
  {
    if others == [] {
      StateStep([Key(id, false)], Key(id, true), id);
      assert [Key(id, false)] + [Key(id, true)] == [Key(id, false), Key(id, true)] + others;
    } else {
      var init, last := others[..|others| - 1], others[|others| - 1];
      assert [Key(id, false), Key(id, true)] + others == ([Key(id, false), Key(id, true)] + init) + [last];
      RemovedStill(init, id);
      StateStep([Key(id, false), Key(id, true)] + init, last, id);
    }
  }
}
