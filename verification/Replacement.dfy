/** Finding out what happened to a submitted trade whose receipt never appears: once its nonce is
    consumed, blocks are scanned 128 at a time for the transaction that used it. */
module Replacement {
  import opened Wrappers
  import opened Chain

  const REPLACEMENT_SCAN_BATCH: nat := 128

  datatype Tx = Tx(from: Address, nonce: nat, to: Option<Address>, value: nat, input: string, hash: Hash)

  /** A block lists full transactions, or only their hashes. */
  datatype Entry = HashOnly(hash: Hash) | Full(tx: Tx)
  type Blocks = seq<seq<Entry>>

  /** What the page remembers about the submitted transaction. */
  datatype Recovery = Recovery(sender: Address, nonce: nat, to: Option<Address>, value: nat, input: string, next: nat)

  datatype Reason = Cancelled | Repriced | Replaced

  datatype Outcome =
    | Receipt(hash: Hash)
    | ReplacedBy(hash: Hash, reason: Reason)
    | Pending(recovery: Option<Recovery>)

  datatype RecoveryError = ReceiptUnavailable | ProvenanceUnavailable

  /** What the node answers during one call. */
  datatype Client = Client(blocks: Blocks, receipts: set<Hash>, submitted: Option<Tx>, consumed: nat)
  {
    /** eth_blockNumber. */
    function Latest(): nat
      requires blocks != []
    {
      |blocks| - 1
    }
  }

  /** replacementReason. */
  function ReasonOf(original: Recovery, tx: Tx): Reason {
    if tx.to == Some(tx.from) && tx.value == 0 then Reason.Cancelled
    else if tx.to == original.to && tx.value == original.value && tx.input == original.input then Reason.Repriced
    else Reason.Replaced
  }

  /** The transaction that used the original sender's nonce. */
  predicate Uses(e: Entry, r: Recovery) {
    e.Full? && e.tx.from == r.sender && e.tx.nonce == r.nonce
  }

  /** The block lists a transaction of this sender with this nonce. */
  ghost predicate UsedIn(block: seq<Entry>, r: Recovery) {
    exists tx: Tx | Full(tx) in block :: tx.from == r.sender && tx.nonce == r.nonce
  }

  /** Array.find: the first entry that uses the nonce. */
  method FindUse(block: seq<Entry>, r: Recovery) returns (found: Option<Tx>)
    ensures found.Some? <==> UsedIn(block, r)
    ensures found.Some? ==> found.value.from == r.sender && found.value.nonce == r.nonce
    ensures found.Some? ==>
      exists i | 0 <= i < |block| :: block[i] == Full(found.value) && !UsedIn(block[..i], r)
  {
    for i := 0 to |block|
      invariant forall j | 0 <= j < i && block[j].Full? :: block[j].tx.from != r.sender || block[j].tx.nonce != r.nonce
    {
      if Uses(block[i], r) { return Some(block[i].tx); }
    }
    return None;
  }

  /** Where the window of one scan ends. */
  function WindowEnd(first: nat, latest: nat): nat {
    if first + REPLACEMENT_SCAN_BATCH - 1 < latest then first + REPLACEMENT_SCAN_BATCH - 1 else latest
  }

  /** Where one scan stops: at the first block of its window that uses the nonce. */
  ghost predicate FirstUse(blocks: Blocks, r: Recovery, first: nat, last: nat, n: nat) {
    first <= n <= last && n < |blocks| && UsedIn(blocks[n], r) && forall m | first <= m < n :: !UsedIn(blocks[m], r)
  }

  ghost predicate Unused(blocks: Blocks, r: Recovery, first: nat, last: nat) {
    forall m | first <= m <= last && m < |blocks| :: !UsedIn(blocks[m], r)
  }

  /** A transaction of nothing to its own sender cancels; one that repeats recipient, value and input reprices;
      any other replaces. */
  predicate Explains(reason: Reason, r: Recovery, tx: Tx) {
    match reason
    case Cancelled => tx.to == Some(tx.from) && tx.value == 0
    case Repriced =>
      (tx.to != Some(tx.from) || tx.value > 0) && tx.to == r.to && tx.value == r.value && tx.input == r.input
    case Replaced =>
      (tx.to != Some(tx.from) || tx.value > 0) && (tx.to != r.to || tx.value != r.value || tx.input != r.input)
  }

  /** How a call reports a transaction it found: only one with the remembered sender and nonce. */
  ghost predicate Reports(o: Outcome, hash: Hash, r: Recovery, block: seq<Entry>) {
    exists tx: Tx | Full(tx) in block :: tx.from == r.sender && tx.nonce == r.nonce && Names(o, hash, r, tx)
  }

  /** The transaction's own receipt if it is the submitted one, and why it took its place otherwise. */
  predicate Names(o: Outcome, hash: Hash, r: Recovery, tx: Tx) {
    match o
    case Receipt(found) => found == tx.hash == hash
    case ReplacedBy(found, reason) => found == tx.hash != hash && Explains(reason, r, tx)
    case Pending(_) => false
  }

  ghost predicate ReportsAny(o: Outcome, hash: Hash, r: Recovery, blocks: Blocks) {
    exists n | 0 <= n < |blocks| :: Reports(o, hash, r, blocks[n])
  }

  /** What one scan does, block by block. */
  ghost predicate Scanned(res: Result<Outcome, RecoveryError>, client: Client, hash: Hash, r: Recovery)
    requires client.blocks != []
  {
    var last := WindowEnd(r.next, client.Latest());
    (forall n: nat | FirstUse(client.blocks, r, r.next, last, n) ::
       res == Err(ReceiptUnavailable) || (res.Ok? && Reports(res.value, hash, r, client.blocks[n])))
    && (Unused(client.blocks, r, r.next, last) ==>
          res == if last < client.Latest() then Ok(Pending(Some(r.(next := last + 1)))) else Err(ProvenanceUnavailable))
  }

  /** The loop over the window's blocks. */
  method Scan(client: Client, hash: Hash, r: Recovery) returns (res: Result<Outcome, RecoveryError>)
    requires client.blocks != []
    ensures Scanned(res, client, hash, r)
    ensures res == Err(ReceiptUnavailable) ==>
      exists n, tx: Tx | 0 <= n < |client.blocks| && Full(tx) in client.blocks[n] ::
        tx.from == r.sender && tx.nonce == r.nonce && tx.hash !in client.receipts
    ensures res.Ok? ==>
      if res.value.Pending? then res.value.recovery == Some(r.(next := WindowEnd(r.next, client.Latest()) + 1))
      else ReportsAny(res.value, hash, r, client.blocks)
  {
    var last := WindowEnd(r.next, client.Latest());
    var n := r.next;
    while n <= last
      invariant r.next <= n && (n <= last + 1 || n == r.next)
      invariant forall m | r.next <= m < n :: m < |client.blocks| && !UsedIn(client.blocks[m], r)
    {
      var found := FindUse(client.blocks[n], r);
      match found {
        case Some(tx) =>
          OnlyFirst(client.blocks, r, r.next, last, n);
          if tx.hash !in client.receipts { return Err(ReceiptUnavailable); }
          if tx.hash == hash { return Ok(Receipt(tx.hash)); }
          return Ok(ReplacedBy(tx.hash, ReasonOf(r, tx)));
        case None => n := n + 1;
      }
    }
    if last < client.Latest() { return Ok(Pending(Some(r.(next := last + 1)))); }
    return Err(ProvenanceUnavailable);
  }

  lemma {:induction false} OnlyFirst(blocks: Blocks, r: Recovery, first: nat, last: nat, n: nat)
    requires FirstUse(blocks, r, first, last, n)
    ensures forall m: nat | FirstUse(blocks, r, first, last, m) :: m == n
  {
  }

  /** The record describes the submitted transaction. */
  predicate Describes(r: Recovery, tx: Tx) {
    r.sender == tx.from && r.nonce == tx.nonce && r.to == tx.to && r.value == tx.value && r.input == tx.input
  }

  /** recoverTransactionReceipt. */
  method RecoverTransactionReceipt(client: Client, hash: Hash, stored: Option<Recovery>)
    returns (res: Result<Outcome, RecoveryError>)
    requires client.blocks != []
    ensures hash in client.receipts ==> res == Ok(Receipt(hash))
    ensures hash !in client.receipts && stored.None? && client.submitted.None? ==> res == Ok(Pending(None))
    ensures hash !in client.receipts && Known(client, stored).Some? ==>
      if client.consumed <= Known(client, stored).value.nonce then res == Ok(Pending(Known(client, stored)))
      else Scanned(res, client, hash, Known(client, stored).value)
    ensures hash !in client.receipts && stored.None? && client.submitted.Some?
            && client.consumed <= client.submitted.value.nonce ==>
      var tx := client.submitted.value;
      res == Ok(Pending(Some(Recovery(tx.from, tx.nonce, tx.to, tx.value, tx.input, |client.blocks| - 1))))
    ensures stored.None? && client.submitted.Some? && res.Ok? && res.value.ReplacedBy? ==>
      exists r :: Describes(r, client.submitted.value) && ReportsAny(res.value, hash, r, client.blocks)
    ensures res.Ok? && res.value.Pending? && res.value.recovery.Some? ==>
      if stored.Some? then res.value.recovery.value.(next := stored.value.next) == stored.value
      else client.submitted.Some? && Describes(res.value.recovery.value, client.submitted.value)
  {
    if hash in client.receipts { return Ok(Receipt(hash)); }
    var recovery := stored;
    if recovery.None? {
      if client.submitted.None? { return Ok(Pending(None)); }
      var tx := client.submitted.value;
      recovery := Some(Recovery(tx.from, tx.nonce, tx.to, tx.value, tx.input, client.Latest()));
    }
    if client.consumed <= recovery.value.nonce { return Ok(Pending(recovery)); }
    res := Scan(client, hash, recovery.value);
  }

  /** What is remembered when a call starts scanning: the stored record, or one captured now. */
  function Known(client: Client, stored: Option<Recovery>): Option<Recovery>
    requires client.blocks != []
  {
    if stored.Some? then stored
    else
      match client.submitted
      case None => None
      case Some(tx) => Some(Recovery(tx.from, tx.nonce, tx.to, tx.value, tx.input, client.Latest()))
  }

  // ---------------------------------------------------------------- repeated calls

  /** Results of successive scanning calls, each started from the record the one before returned. */
  ghost predicate Calls(clients: seq<Client>, hash: Hash, r: Recovery, results: seq<Result<Outcome, RecoveryError>>)
    decreases |clients|
  {
    |results| == |clients| && (clients != [] ==>
      clients[0].blocks != [] && Scanned(results[0], clients[0], hash, r)
      && (|clients| > 1 ==> match results[0]
                            case Ok(Pending(Some(later))) => Calls(clients[1..], hash, later, results[1..])
                            case _ => false))
  }

  /** Every call sees the same single use of the nonce, in block b. */
  ghost predicate UsedAt(clients: seq<Client>, b: nat, r: Recovery) {
    forall i | 0 <= i < |clients| ::
      b < |clients[i].blocks| && UsedIn(clients[i].blocks[b], r)
      && forall m | 0 <= m < |clients[i].blocks| && m != b :: !UsedIn(clients[i].blocks[m], r)
  }

  /** The call whose window holds block b, counting from 0. */
  function CallFor(start: nat, b: nat): nat
    requires start <= b
  {
    (b - start) / REPLACEMENT_SCAN_BATCH
  }

  lemma {:induction false} CallForBounds(start: nat, b: nat)
    requires start <= b
    ensures CallFor(start, b) + 1 == (b - start + REPLACEMENT_SCAN_BATCH) / REPLACEMENT_SCAN_BATCH
    ensures b <= start + 127 <==> CallFor(start, b) == 0
    ensures b > start + 127 ==> CallFor(start + 128, b) + 1 == CallFor(start, b)
  {
  }

  lemma {:induction false} SameUse(r: Recovery, later: Recovery, blocks: Blocks, m: nat)
    requires m < |blocks| && r.sender == later.sender && r.nonce == later.nonce
    ensures UsedIn(blocks[m], r) <==> UsedIn(blocks[m], later)
  {
  }

  lemma {:induction false} UsedLater(clients: seq<Client>, b: nat, r: Recovery, later: Recovery)
    requires clients != [] && UsedAt(clients, b, r) && r.sender == later.sender && r.nonce == later.nonce
    ensures UsedAt(clients[1..], b, later)
  {
    forall i, m: nat | 0 <= i < |clients| && m < |clients[i].blocks|
      ensures UsedIn(clients[i].blocks[m], r) <==> UsedIn(clients[i].blocks[m], later)
    {
      SameUse(r, later, clients[i].blocks, m);
    }
    assert forall i | 0 <= i < |clients[1..]| :: clients[1..][i] == clients[i + 1];
  }

  /** One call whose window holds block b finds it; one whose window ends before b moves on. */
  lemma {:induction false} OneCall(client: Client, hash: Hash, r: Recovery, res: Result<Outcome, RecoveryError>, b: nat)
    requires client.blocks != [] && Scanned(res, client, hash, r) && r.next <= b < |client.blocks|
    requires UsedIn(client.blocks[b], r) && forall m | 0 <= m < |client.blocks| && m != b ::
      !UsedIn(client.blocks[m], r)
    ensures b <= r.next + 127 ==> Finds(res, hash, r, client.blocks[b])
    ensures b > r.next + 127 ==> res == Ok(Pending(Some(r.(next := r.next + 128)))) && r.next + 128 <= client.Latest()
  {
    var last := WindowEnd(r.next, client.Latest());
    if b <= r.next + 127 {
      assert FirstUse(client.blocks, r, r.next, last, b);
    } else {
      assert Unused(client.blocks, r, r.next, last);
    }
  }

  ghost predicate Finds(res: Result<Outcome, RecoveryError>, hash: Hash, r: Recovery, block: seq<Entry>) {
    res == Err(ReceiptUnavailable) || (res.Ok? && Reports(res.value, hash, r, block))
  }

  /** Every call before that one is inconclusive and moves the window by exactly 128 blocks, never
      past the newest block; that call finds the transaction. So at most ceil((b - start + 1) / 128)
      scanning calls are needed. */
  lemma {:induction false} FoundInTime(clients: seq<Client>, hash: Hash, r: Recovery,
                                       results: seq<Result<Outcome, RecoveryError>>, b: nat)
    requires r.next <= b && UsedAt(clients, b, r) && Calls(clients, hash, r, results)
    ensures |clients| <= CallFor(r.next, b) + 1
    ensures forall i | 0 <= i < |clients| && i < CallFor(r.next, b) ::
      results[i] == Ok(Pending(Some(r.(next := r.next + 128 * (i + 1)))))
      && r.next + 128 * (i + 1) <= clients[i].Latest()
    ensures |clients| == CallFor(r.next, b) + 1 ==>
      Finds(results[|clients| - 1], hash, r.(next := r.next + 128 * CallFor(r.next, b)),
        clients[|clients| - 1].blocks[b])
    decreases |clients|
  {
    if clients != [] {
      CallForBounds(r.next, b);
      OneCall(clients[0], hash, r, results[0], b);
      if b > r.next + 127 && |clients| > 1 {
        var later := r.(next := r.next + 128);
        UsedLater(clients, b, r, later);
        FoundInTime(clients[1..], hash, later, results[1..], b);
        assert forall i | 0 <= i < |clients| - 1 ::
          results[1..][i] == results[i + 1] && clients[1..][i] == clients[i + 1];
      }
    }
  }

  /** A use before the first scanned block is never found: every call stays inconclusive or gives up. */
  lemma {:induction false} NeverLooksBack(client: Client, hash: Hash, r: Recovery, res: Result<Outcome, RecoveryError>,
                                          b: nat)
    requires client.blocks != [] && Scanned(res, client, hash, r)
    requires b < r.next && forall m | 0 <= m < |client.blocks| && m != b :: !UsedIn(client.blocks[m], r)
    ensures res == Err(ProvenanceUnavailable)
      || (exists later :: res == Ok(Pending(Some(later))) && later.next == r.next + 128 <= client.Latest())
  {
    assert Unused(client.blocks, r, r.next, WindowEnd(r.next, client.Latest()));
  }
}
