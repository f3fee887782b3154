/** The API's cursor pages, each WHERE clause written as its SQL disjunction beside its ORDER BY. */
module Listings {
  import opened Wrappers
  import opened Chain
  import opened Numeric
  import opened Pager
  import Sorting

  // ---------------------------------------------------------------- token lists

  datatype TokenKey = TokenKey(block: nat, address: Address)

  /** block_number DESC, token_address ASC. */
  predicate TokenOrder(a: TokenKey, b: TokenKey) {
    a.block > b.block || (a.block == b.block && a.address < b.address)
  }

  predicate TokenWhere(c: TokenKey, t: TokenKey) {
    t.block < c.block || (t.block == c.block && t.address > c.address)
  }

  /** ListTokens, CreatorTokens and the linked view. */
  lemma {:induction false} TokensComplete(list: seq<TokenKey>)
    requires Sorting.Ascending(list, TokenOrder)
    ensures Complete(list, TokenWhere)
  {
    SameOrderComplete(list, TokenOrder, TokenWhere);
  }

  datatype TopKey = TopKey(value: nat, block: nat, address: Address)

  predicate TopOrder(a: TopKey, b: TopKey) {
    a.value > b.value || (a.value == b.value && TokenOrder(TokenKey(a.block, a.address), TokenKey(b.block, b.address)))
  }

  predicate TopWhere(c: TopKey, t: TopKey) {
    t.value < c.value || (t.value == c.value && t.block < c.block)
    || (t.value == c.value && t.block == c.block && t.address > c.address)
  }

  lemma {:induction false} TopComplete(list: seq<TopKey>)
    requires Sorting.Ascending(list, TopOrder)
    ensures Complete(list, TopWhere)
  {
    SameOrderComplete(list, TopOrder, TopWhere);
  }

  datatype TrendingKey = TrendingKey(volume: nat, trades: nat, users: nat, block: nat, address: Address)

  predicate TrendingOrder(a: TrendingKey, b: TrendingKey) {
    a.volume > b.volume || (a.volume == b.volume &&
      (a.trades > b.trades || (a.trades == b.trades &&
        (a.users > b.users
          || (a.users == b.users && TokenOrder(TokenKey(a.block, a.address), TokenKey(b.block, b.address)))))))
  }

  predicate TrendingWhere(c: TrendingKey, t: TrendingKey) {
    t.volume < c.volume
    || (t.volume == c.volume && t.trades < c.trades)
    || (t.volume == c.volume && t.trades == c.trades && t.users < c.users)
    || (t.volume == c.volume && t.trades == c.trades && t.users == c.users && t.block < c.block)
    || (t.volume == c.volume && t.trades == c.trades && t.users == c.users && t.block == c.block
      && t.address > c.address)
  }

  lemma {:induction false} TrendingComplete(list: seq<TrendingKey>)
    requires Sorting.Ascending(list, TrendingOrder)
    ensures Complete(list, TrendingWhere)
  {
    SameOrderComplete(list, TrendingOrder, TrendingWhere);
  }

  // ---------------------------------------------------------------- CTO lists

  /** Proposals carry their id as a last key; the three ledgers have id 0. */
  datatype LedgerKey = LedgerKey(block: nat, tx: Hash, index: nat, id: Hash)

  predicate LedgerOrder(a: LedgerKey, b: LedgerKey) {
    a.block > b.block || (a.block == b.block &&
      (a.tx > b.tx || (a.tx == b.tx && (a.index > b.index || (a.index == b.index && a.id > b.id)))))
  }

  predicate LedgerWhere(c: LedgerKey, t: LedgerKey) {
    t.block < c.block || (t.block == c.block &&
      (t.tx < c.tx || (t.tx == c.tx && (t.index < c.index || (t.index == c.index && t.id < c.id)))))
  }

  lemma {:induction false} LedgersComplete(list: seq<LedgerKey>)
    requires Sorting.Ascending(list, LedgerOrder)
    ensures Complete(list, LedgerWhere)
  {
    SameOrderComplete(list, LedgerOrder, LedgerWhere);
  }

  // ---------------------------------------------------------------- trades and activity

  datatype TradeKey = TradeKey(block: nat, txIndex: nat, tx: Hash, index: nat)

  /** block_number DESC, transaction_index DESC, log_index DESC, transaction_hash DESC. */
  predicate TradeOrder(a: TradeKey, b: TradeKey) {
    a.block > b.block || (a.block == b.block &&
      (a.txIndex > b.txIndex || (a.txIndex == b.txIndex &&
        (a.index > b.index || (a.index == b.index && a.tx > b.tx)))))
  }

  /** The clause compares the transaction hash before the log index. */
  predicate TradeWhere(c: TradeKey, t: TradeKey) {
    t.block < c.block || (t.block == c.block &&
      (t.txIndex < c.txIndex || (t.txIndex == c.txIndex &&
        (t.tx < c.tx || (t.tx == c.tx && t.index < c.index)))))
  }

  /** Within one (block, transaction index), rows of different transactions come in hash order. */
  ghost predicate Uncrossed(list: seq<TradeKey>) {
    forall i, j | 0 <= i < j < |list| && list[i].block == list[j].block && list[i].txIndex == list[j].txIndex ::
      list[j].tx <= list[i].tx
  }

  /** Trades and activity page completely exactly when no position holds crossed transactions. */
  lemma {:induction false} TradesCompleteIff(list: seq<TradeKey>)
    requires Sorting.Ascending(list, TradeOrder)
    ensures Complete(list, TradeWhere) <==> Uncrossed(list)
  {
    assert Sorting.Distinct(list) by {
      forall i, j | 0 <= i < j < |list| ensures list[i] != list[j] { assert TradeOrder(list[i], list[j]); }
    }
    CompleteIffAgrees(list, TradeWhere);
    forall i, j | 0 <= i < j < |list| ensures TradeOrder(list[i], list[j]) {}
    if Agrees(list, TradeWhere) {
      forall i, j | 0 <= i < j < |list| && list[i].block == list[j].block && list[i].txIndex == list[j].txIndex
        ensures list[j].tx <= list[i].tx
      {
        assert TradeWhere(list[i], list[j]);
      }
    }
    if Uncrossed(list) {
      forall i, j | 0 <= i < |list| - 1 && 0 <= j < |list| ensures TradeWhere(list[i], list[j]) <==> i < j {
        if i < j { assert TradeOrder(list[i], list[j]); }
        if j < i { assert TradeOrder(list[j], list[i]); }
      }
    }
  }

  /** On one chain a block position names one transaction, and then nothing can cross. */
  lemma {:induction false} TradesComplete(list: seq<TradeKey>)
    requires Sorting.Ascending(list, TradeOrder)
    requires forall a, b | a in list && b in list && a.block == b.block && a.txIndex == b.txIndex :: a.tx == b.tx
    ensures Complete(list, TradeWhere)
  {
    TradesCompleteIff(list);
    forall i, j | 0 <= i < j < |list| && list[i].block == list[j].block && list[i].txIndex == list[j].txIndex
      ensures list[j].tx <= list[i].tx
    {
      assert list[i] in list && list[j] in list;
    }
  }

  /** Without that fact rows are lost. */
  lemma {:induction false} CrossedTradesLost()
    ensures var list := [TradeKey(5, 0, 1, 9), TradeKey(5, 0, 2, 3)];
      Sorting.Ascending(list, TradeOrder) && !Complete(list, TradeWhere)
  {
    var list := [TradeKey(5, 0, 1, 9), TradeKey(5, 0, 2, 3)];
    TradesCompleteIff(list);
    assert list[1].tx > list[0].tx;
  }

  // ---------------------------------------------------------------- the near view

  datatype NearKey = NearKey(sold: nat, threshold: nat, block: nat, address: Address)

  /** What the view lists: lifecycle active, threshold > 0, sold < threshold. */
  ghost predicate NearRows(list: seq<NearKey>) {
    forall k | k in list :: k.sold < k.threshold
  }

  /** The quotient of a row as SQL keeps it, in units of 10^-(its digits). */
  function Quotient(k: NearKey, digits: Digits): nat
    requires k.threshold > 0
  {
    Rounded(k.sold, k.threshold, digits(k.sold, k.threshold))
  }

  function Unit(k: NearKey, digits: Digits): nat {
    Pow10(digits(k.sold, k.threshold))
  }

  /** Rows whose kept quotients are the same number. */
  predicate SameQuotient(a: NearKey, b: NearKey, digits: Digits)
    requires a.threshold > 0 && b.threshold > 0
  {
    Quotient(a, digits) * Unit(b, digits) == Quotient(b, digits) * Unit(a, digits)
  }

  /** ORDER BY sold / threshold DESC, block DESC, address ASC; how many digits of a quotient SQL keeps
      depends on the row. */
  predicate NearOrder(a: NearKey, b: NearKey, digits: Digits)
    requires a.threshold > 0 && b.threshold > 0
  {
    Quotient(a, digits) * Unit(b, digits) > Quotient(b, digits) * Unit(a, digits)
    || (SameQuotient(a, b, digits) && TokenOrder(TokenKey(a.block, a.address), TokenKey(b.block, b.address)))
  }

  ghost predicate NearSorted(list: seq<NearKey>, digits: Digits) {
    NearRows(list)
    && forall i, j | 0 <= i < j < |list| ::
      list[i].threshold > 0 && list[j].threshold > 0 && NearOrder(list[i], list[j], digits)
  }

  /** The clause multiplies out instead of dividing. */
  predicate NearWhere(c: NearKey, t: NearKey) {
    t.sold * c.threshold < c.sold * t.threshold
    || (t.sold * c.threshold == c.sold * t.threshold && t.block < c.block)
    || (t.sold * c.threshold == c.sold * t.threshold && t.block == c.block && t.address > c.address)
  }

  /** No ratio rises along the list, and equal ratios stand in launch order. */
  ghost predicate ExactlyOrdered(list: seq<NearKey>) {
    forall i, j | 0 <= i < j < |list| ::
      list[j].sold * list[i].threshold <= list[i].sold * list[j].threshold
      && (list[j].sold * list[i].threshold == list[i].sold * list[j].threshold ==>
        TokenOrder(TokenKey(list[i].block, list[i].address), TokenKey(list[j].block, list[j].address)))
  }

  lemma {:induction false} NearAsymmetric(a: NearKey, b: NearKey)
    requires NearWhere(a, b)
    ensures !NearWhere(b, a)
  {
  }

  /** The near view, ordered by rounded quotients but filtered by exact ratios, pages completely exactly
      when its rows also stand in the order of their exact ratios. */
  lemma {:induction false} NearCompleteIff(list: seq<NearKey>, digits: Digits)
    requires NearSorted(list, digits)
    ensures Complete(list, NearWhere) <==> ExactlyOrdered(list)
  {
    NearDistinct(list, digits);
    CompleteIffAgrees(list, NearWhere);
    if Agrees(list, NearWhere) {
      forall i, j | 0 <= i < j < |list|
        ensures list[j].sold * list[i].threshold <= list[i].sold * list[j].threshold
        ensures list[j].sold * list[i].threshold == list[i].sold * list[j].threshold ==>
          TokenOrder(TokenKey(list[i].block, list[i].address), TokenKey(list[j].block, list[j].address))
      {
        assert NearWhere(list[i], list[j]);
      }
    }
    if ExactlyOrdered(list) {
      forall i, j | 0 <= i < |list| - 1 && 0 <= j < |list| ensures NearWhere(list[i], list[j]) <==> i < j {
        if i < j { assert NearWhere(list[i], list[j]); }
        if j < i { assert NearWhere(list[j], list[i]); NearAsymmetric(list[j], list[i]); }
      }
    }
  }

  lemma {:induction false} NearDistinct(list: seq<NearKey>, digits: Digits)
    requires NearSorted(list, digits)
    ensures Sorting.Distinct(list)
  {
    forall i, j | 0 <= i < j < |list| ensures list[i] != list[j] { assert NearOrder(list[i], list[j], digits); }
  }

  /** Rows that share a kept quotient do not rise in their exact ratios. */
  ghost predicate NoCollision(list: seq<NearKey>, digits: Digits)
    requires NearSorted(list, digits)
  {
    forall i, j | 0 <= i < j < |list| && SameQuotient(list[i], list[j], digits) ::
      list[j].sold * list[i].threshold <= list[i].sold * list[j].threshold
  }

  ghost predicate SameDigits(list: seq<NearKey>, digits: Digits) {
    forall a, b | a in list && b in list :: digits(a.sold, a.threshold) == digits(b.sold, b.threshold)
  }

  /** Kept to the same digits, different quotients are in order already, so the view pages completely
      exactly when no two ratios collapse into one quotient against their launch order. */
  lemma {:induction false} NearCollisions(list: seq<NearKey>, digits: Digits)
    requires NearSorted(list, digits) && SameDigits(list, digits)
    ensures Complete(list, NearWhere) <==> NoCollision(list, digits)
  {
    NearCompleteIff(list, digits);
    forall i, j | 0 <= i < j < |list|
      ensures !SameQuotient(list[i], list[j], digits) ==>
        list[j].sold * list[i].threshold < list[i].sold * list[j].threshold
      ensures list[j].sold * list[i].threshold == list[i].sold * list[j].threshold ==>
        TokenOrder(TokenKey(list[i].block, list[i].address), TokenKey(list[j].block, list[j].address))
    {
      assert list[i] in list && list[j] in list && NearOrder(list[i], list[j], digits);
      SameDigitsStep(list[i], list[j], digits);
    }
  }

  lemma {:induction false} SameDigitsStep(a: NearKey, b: NearKey, digits: Digits)
    requires a.threshold > 0 && b.threshold > 0 && digits(a.sold, a.threshold) == digits(b.sold, b.threshold)
    requires NearOrder(a, b, digits)
    ensures !SameQuotient(a, b, digits) ==> b.sold * a.threshold < a.sold * b.threshold
    ensures b.sold * a.threshold == a.sold * b.threshold ==> SameQuotient(a, b, digits)
  {
    var k := digits(a.sold, a.threshold);
    if b.sold * a.threshold >= a.sold * b.threshold {
      RoundedMonotone(a.sold, a.threshold, b.sold, b.threshold, k);
      MulMono(Quotient(a, digits), Quotient(b, digits), Pow10(k));
    }
  }

  // ---------------------------------------------------------------- rows that are lost

  const TARGET := 800_000_000_000_000_000_000_000_000
  const SOLD_HALF := NearKey(400_000_000_000_000_000_000_000_000, TARGET, 9, 1)
  const SOLD_MORE := NearKey(400_000_000_000_000_000_000_000_001, TARGET, 8, 2)

  lemma {:induction false} PowTwenty()
    ensures Pow10(20) == 100_000_000_000_000_000_000
  {
    assert Pow10(10) == 10_000_000_000;
  }

  lemma {:induction false} HalfDigits()
    ensures Quotient(SOLD_HALF, PostgresDigits) == Quotient(SOLD_MORE, PostgresDigits) == 50_000_000_000_000_000_000
    ensures Unit(SOLD_HALF, PostgresDigits) == Unit(SOLD_MORE, PostgresDigits) == Pow10(20)
  {
    assert Weight(SOLD_HALF.sold) == Weight(SOLD_MORE.sold) == Weight(TARGET) == 6;
    assert Lead(SOLD_HALF.sold) == Lead(SOLD_MORE.sold) == 400 && Lead(TARGET) == 800;
    PowTwenty();
    FloorUnique(2 * (SOLD_HALF.sold * Pow10(20)) + TARGET, 2 * TARGET, 50_000_000_000_000_000_000);
    FloorUnique(2 * (SOLD_MORE.sold * Pow10(20)) + TARGET, 2 * TARGET, 50_000_000_000_000_000_000);
  }

  lemma {:induction false} HalfFirst()
    ensures NearOrder(SOLD_HALF, SOLD_MORE, PostgresDigits)
    ensures SOLD_MORE.sold * SOLD_HALF.threshold > SOLD_HALF.sold * SOLD_MORE.threshold
  {
    HalfDigits();
  }

  /** A list with a rise in its exact ratios does not page completely. */
  lemma {:induction false} RiseLost(list: seq<NearKey>, digits: Digits, i: nat, j: nat)
    requires NearSorted(list, digits) && i < j < |list|
    requires list[j].sold * list[i].threshold > list[i].sold * list[j].threshold
    ensures !Complete(list, NearWhere)
  {
    NearCompleteIff(list, digits);
  }

  lemma {:induction false} ThreeSorted(a: NearKey, b: NearKey, c: NearKey, digits: Digits)
    requires a.sold < a.threshold && b.sold < b.threshold && c.sold < c.threshold
    requires NearOrder(a, b, digits) && NearOrder(a, c, digits) && NearOrder(b, c, digits)
    ensures NearSorted([a, b], digits) && NearSorted([a, b, c], digits)
  {
  }

  /** Two curves one raw token apart, the fuller one launched earlier: with PostgreSQL's 20 digits the
      quotients tie, the newer curve is listed first, and the fuller one is never shown. */
  lemma {:induction false} NearRowLost()
    ensures NearSorted([SOLD_HALF, SOLD_MORE], PostgresDigits) && !Complete([SOLD_HALF, SOLD_MORE], NearWhere)
    ensures Walk([SOLD_HALF, SOLD_MORE], NearWhere, None, [1, 1]) == ([SOLD_HALF], true)
  {
    HalfFirst();
    BarelyLast();
    ThreeSorted(SOLD_HALF, SOLD_MORE, BARELY, PostgresDigits);
    RiseLost([SOLD_HALF, SOLD_MORE], PostgresDigits, 0, 1);
    FullerNeverShown([SOLD_HALF, SOLD_MORE]);
  }

  lemma {:induction false} FullerNeverShown(list: seq<NearKey>)
    requires list == [SOLD_HALF, SOLD_MORE]
    ensures Walk(list, NearWhere, None, [1, 1]) == ([SOLD_HALF], true)
  {
    NoneMatch(list, NearWhere, SOLD_HALF);
    assert PageOf(list, NearWhere, None, 1) == Page([SOLD_HALF], Some(SOLD_HALF));
    assert [1, 1][1..] == [1];
    WalkOnce(list, NearWhere, Some(SOLD_HALF), 1);
    assert [SOLD_HALF] + [] == [SOLD_HALF];
  }

  const BARELY := NearKey(40_000_000_000_000_000_000_000, TARGET, 7, 3)

  lemma {:induction false} BarelyDigits()
    ensures PostgresDigits(BARELY.sold, TARGET) == 24 && PostgresDigits(SOLD_HALF.sold, TARGET) == 20
    ensures Quotient(BARELY, PostgresDigits) == 50_000_000_000_000_000_000
      && Unit(BARELY, PostgresDigits) == 10_000 * Pow10(20)
  {
    assert Weight(SOLD_HALF.sold) == Weight(TARGET) == 6 && Lead(SOLD_HALF.sold) == 400 && Lead(TARGET) == 800;
    assert Weight(BARELY.sold) == 5 && Lead(BARELY.sold) == 400;
    PowTwenty();
    assert Pow10(24) == 10_000 * Pow10(20);
    FloorUnique(2 * (BARELY.sold * Pow10(24)) + TARGET, 2 * TARGET, 50_000_000_000_000_000_000);
  }

  lemma {:induction false} BarelyLast()
    ensures NearOrder(SOLD_HALF, BARELY, PostgresDigits) && NearOrder(SOLD_MORE, BARELY, PostgresDigits)
  {
    HalfDigits();
    BarelyDigits();
    PowTwenty();
  }

  /** A list can mix digits: next to those two, a curve that has barely started keeps 24. */
  lemma {:induction false} MixedDigitsLost()
    ensures PostgresDigits(BARELY.sold, TARGET) == 24 && PostgresDigits(SOLD_HALF.sold, TARGET) == 20
    ensures NearSorted([SOLD_HALF, SOLD_MORE, BARELY], PostgresDigits)
    ensures !Complete([SOLD_HALF, SOLD_MORE, BARELY], NearWhere)
  {
    BarelyDigits();
    HalfFirst();
    BarelyLast();
    ThreeSorted(SOLD_HALF, SOLD_MORE, BARELY, PostgresDigits);
    RiseLost([SOLD_HALF, SOLD_MORE, BARELY], PostgresDigits, 0, 1);
  }
}
