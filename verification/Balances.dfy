/** Holder balances of one token: signed sums of its canonical Transfer events, with the launch
    seeding the curve's allocation when the constructor mint was not collected. */
module Balances {
  import opened Chain
  import opened Sums

  /** A canonical event as the balance query reads it: emitter and decoded payload. */
  datatype Seen = Seen(address: Address, payload: Payload)

  predicate IsTransfer(e: Seen, token: Address) {
    e.payload.Transfer? && e.address == token
  }

  predicate IsMint(e: Seen, token: Address) {
    IsTransfer(e, token) && e.payload.from == ZERO_ADDRESS
  }

  predicate IsLaunch(e: Seen, token: Address) {
    e.payload.Launch? && e.payload.token == token
  }

  predicate MintCollected(events: seq<Seen>, token: Address) {
    exists e | e in events :: IsMint(e, token)
  }

  function Add(m: map<Address, int>, account: Address, amount: int): map<Address, int> {
    m[account := Get(m, account) + amount]
  }

  /** One event's deltas: a debit unless it mints, a credit unless it burns; a launch seeds its
      curve when `seed` is set. `known` says the token has a canonical tokens row. */
  function Step(m: map<Address, int>, e: Seen, token: Address, known: bool, seed: bool): map<Address, int> {
    if IsTransfer(e, token) && known then
      var t := e.payload;
      var debited := if t.from == ZERO_ADDRESS then m else Add(m, t.from, -(t.value as int));
      if t.to == ZERO_ADDRESS then debited else Add(debited, t.to, t.value)
    else if IsLaunch(e, token) && seed then Add(m, e.payload.curve, e.payload.supply)
    else m
  }

  function Raw(events: seq<Seen>, token: Address, known: bool, seed: bool): map<Address, int>
    decreases |events|
  {
    if events == [] then map[]
    else Step(Raw(events[..|events| - 1], token, known, seed), events[|events| - 1], token, known, seed)
  }

  /** token_holder_balances of one token. */
  function Stored(events: seq<Seen>, token: Address, known: bool): map<Address, int> {
    var raw := Raw(events, token, known, !MintCollected(events, token));
    map a | a in raw && raw[a] > 0 :: raw[a]
  }

  /** What one event adds to the circulating supply. */
  function Minted(e: Seen, token: Address, known: bool, seed: bool): int {
    if IsTransfer(e, token) && known then
      (if e.payload.from == ZERO_ADDRESS then e.payload.value else 0)
        - (if e.payload.to == ZERO_ADDRESS then e.payload.value else 0)
    else if IsLaunch(e, token) && seed then e.payload.supply
    else 0
  }

  function Supply(events: seq<Seen>, token: Address, known: bool, seed: bool): int
    decreases |events|
  {
    if events == [] then 0
    else Supply(events[..|events| - 1], token, known, seed) + Minted(events[|events| - 1], token, known, seed)
  }

  lemma {:induction false} RawConserves(events: seq<Seen>, token: Address, known: bool, seed: bool)
    ensures Total(Raw(events, token, known, seed)) == Supply(events, token, known, seed)
    decreases |events|
  {
    if events != [] {
      var init, e := events[..|events| - 1], events[|events| - 1];
      RawConserves(init, token, known, seed);
      StepConserves(Raw(init, token, known, seed), e, token, known, seed);
    }
  }

  lemma {:induction false} AddConserves(m: map<Address, int>, a: Address, v: int)
    ensures Total(Add(m, a, v)) == Total(m) + v
  {
    TotalAdd(m, a, v, Add(m, a, v));
  }

  lemma {:induction false} StepConserves(m: map<Address, int>, e: Seen, token: Address, known: bool, seed: bool)
    ensures Total(Step(m, e, token, known, seed)) == Total(m) + Minted(e, token, known, seed)
  {
    if IsTransfer(e, token) && known {
      var t := e.payload;
      var debited := if t.from == ZERO_ADDRESS then m else Add(m, t.from, -(t.value as int));
      AddConserves(m, t.from, -(t.value as int));
      AddConserves(debited, t.to, t.value);
    } else if IsLaunch(e, token) {
      AddConserves(m, e.payload.curve, e.payload.supply);
    }
  }

  /** Stored balances are positive, and they sum to minted minus burned exactly when no account's
      collected history overdraws; an overdraft only makes the stored sum larger. */
  lemma {:induction false} StoredBalancesConserve(events: seq<Seen>, token: Address, known: bool)
    ensures var seed := !MintCollected(events, token);
      var raw := Raw(events, token, known, seed);
      var stored := Stored(events, token, known);
      (forall a | a in stored :: stored[a] > 0 && stored[a] == raw[a])
      && (Total(stored) == Supply(events, token, known, seed) <==> forall a | a in raw :: raw[a] >= 0)
      && Total(stored) >= Supply(events, token, known, seed)
  {
    var seed := !MintCollected(events, token);
    RawConserves(events, token, known, seed);
    TotalPositive(Raw(events, token, known, seed));
  }

  lemma {:induction false} AddCommutes(m: map<Address, int>, a: Address, v: int, b: Address, w: int)
    ensures Add(Add(m, a, v), b, w) == Add(Add(m, b, w), a, v)
  {
  }

  /** A credit commutes with every event's deltas. */
  lemma {:induction false} StepCommutes(m: map<Address, int>, a: Address, v: int, e: Seen, token: Address, known: bool,
                                        seed: bool)
    ensures Step(Add(m, a, v), e, token, known, seed) == Add(Step(m, e, token, known, seed), a, v)
  {
    if IsTransfer(e, token) && known {
      var t := e.payload;
      AddCommutes(m, a, v, t.from, -(t.value as int));
      AddCommutes(m, a, v, t.to, t.value);
      AddCommutes(Add(m, t.from, -(t.value as int)), a, v, t.to, t.value);
    } else if IsLaunch(e, token) {
      AddCommutes(m, a, v, e.payload.curve, e.payload.supply);
    }
  }

  lemma {:induction false} NoLaunchNoSeed(events: seq<Seen>, token: Address)
    requires forall e | e in events :: !IsLaunch(e, token)
    ensures Raw(events, token, true, true) == Raw(events, token, true, false)
    decreases |events|
  {
    if events != [] {
      assert events[|events| - 1] in events;
      NoLaunchNoSeed(events[..|events| - 1], token);
    }
  }

  /** The launch seed credits the curve once. */
  lemma {:induction false} SeedCredits(events: seq<Seen>, i: nat, token: Address)
    requires OneLaunch(events, i, token)
    ensures Raw(events, token, true, true)
         == Add(Raw(events, token, true, false), events[i].payload.curve, events[i].payload.supply)
    decreases |events|
  {
    var n := |events| - 1;
    var init, e, l := events[..n], events[n], events[i].payload;
    if i == n {
      NoLaunchNoSeed(init, token);
    } else {
      SeedCredits(init, i, token);
      StepCommutes(Raw(init, token, true, false), l.curve, l.supply, e, token, true, false);
    }
  }

  /** A mint credits its receiver once, wherever it stands. */
  lemma {:induction false} MintCredits(pre: seq<Seen>, mint: Seen, post: seq<Seen>, token: Address, seed: bool)
    requires IsMint(mint, token) && mint.payload.to != ZERO_ADDRESS
    ensures Raw(pre + [mint] + post, token, true, seed)
         == Add(Raw(pre + post, token, true, seed), mint.payload.to, mint.payload.value)
    decreases |post|
  {
    var all, others := pre + [mint] + post, pre + post;
    if post == [] {
      assert all[..|all| - 1] == pre == others && all[|all| - 1] == mint;
    } else {
      var init, e := post[..|post| - 1], post[|post| - 1];
      MintCredits(pre, mint, init, token, seed);
      assert all[..|all| - 1] == pre + [mint] + init && others[..|others| - 1] == pre + init;
      assert all[|all| - 1] == e && others[|others| - 1] == e;
      StepCommutes(Raw(pre + init, token, true, seed), mint.payload.to, mint.payload.value, e, token, true, seed);
    }
  }

  /** Event i is the token's only launch. */
  ghost predicate OneLaunch(events: seq<Seen>, i: nat, token: Address) {
    i < |events| && IsLaunch(events[i], token) && forall j | 0 <= j < |events| && j != i :: !IsLaunch(events[j], token)
  }

  /** Missing the constructor mint is harmless: the launch seed stores the same balances as a
      collected mint of the total supply to the curve, wherever the mint stands in the history. */
  lemma {:induction false} SeedEqualsCollectedMint(pre: seq<Seen>, mint: Seen, post: seq<Seen>, i: nat, token: Address)
    requires OneLaunch(pre + post, i, token) && IsMint(mint, token) && forall e | e in pre + post :: !IsMint(e, token)
    requires var launch := (pre + post)[i].payload;
      mint.payload.to == launch.curve != ZERO_ADDRESS && mint.payload.value == launch.supply
    ensures Stored(pre + post, token, true) == Stored(pre + [mint] + post, token, true)
  {
    assert (pre + [mint] + post)[|pre|] == mint;
    SeedCredits(pre + post, i, token);
    MintCredits(pre, mint, post, token, false);
  }

  // ---------------------------------------------------------------- account by account

  /** What an account received in transfers, sent in transfers, and was allotted as a launched curve. */
  datatype Flow = Received | Sent | Allotted

  ghost function Amount(flow: Flow, e: Seen, token: Address, a: Address): nat {
    match flow
    case Received =>
      if e.payload.Transfer? && e.address == token && e.payload.to == a && a != ZERO_ADDRESS then e.payload.value else 0
    case Sent =>
      if e.payload.Transfer? && e.address == token && e.payload.from == a && a != ZERO_ADDRESS then e.payload.value
      else 0
    case Allotted =>
      if e.payload.Launch? && e.payload.token == token && e.payload.curve == a then e.payload.supply else 0
  }

  ghost function Flowed(flow: Flow, events: seq<Seen>, token: Address, a: Address): nat
    decreases |events|
  {
    if events == [] then 0
    else Flowed(flow, events[..|events| - 1], token, a) + Amount(flow, events[|events| - 1], token, a)
  }

  /** A transfer of the token out of the zero address was collected. */
  ghost predicate Minting(events: seq<Seen>, token: Address) {
    exists e | e in events :: e.payload.Transfer? && e.address == token && e.payload.from == ZERO_ADDRESS
  }

  /** Received less sent, for tokens with a canonical row; a launch counts only while no mint was collected. */
  ghost function Balance(events: seq<Seen>, token: Address, known: bool, a: Address): int {
    (if known then Flowed(Received, events, token, a) - Flowed(Sent, events, token, a) else 0)
    + (if Minting(events, token) then 0 else Flowed(Allotted, events, token, a))
  }

  lemma {:induction false} StepAt(m: map<Address, int>, e: Seen, token: Address, known: bool, seed: bool, a: Address)
    ensures Get(Step(m, e, token, known, seed), a) == Get(m, a)
      + (if known then Amount(Received, e, token, a) - Amount(Sent, e, token, a) else 0)
      + (if seed then Amount(Allotted, e, token, a) else 0)
  {
  }

  lemma {:induction false} RawAt(events: seq<Seen>, token: Address, known: bool, seed: bool, a: Address)
    ensures Get(Raw(events, token, known, seed), a)
         == (if known then Flowed(Received, events, token, a) - Flowed(Sent, events, token, a) else 0)
      + (if seed then Flowed(Allotted, events, token, a) else 0)
    decreases |events|
  {
    if events != [] {
      var init, e := events[..|events| - 1], events[|events| - 1];
      RawAt(init, token, known, seed, a);
      StepAt(Raw(init, token, known, seed), e, token, known, seed, a);
    }
  }

  /** An account is listed exactly when its balance is positive, and then with its balance. */
  lemma {:induction false} AccountBalance(events: seq<Seen>, token: Address, known: bool, a: Address)
    ensures a in Stored(events, token, known) <==> Balance(events, token, known, a) > 0
    ensures a in Stored(events, token, known) ==>
      Stored(events, token, known)[a] == Balance(events, token, known, a)
  {
    RawAt(events, token, known, !MintCollected(events, token), a);
    assert MintCollected(events, token) <==> Minting(events, token);
  }
}
