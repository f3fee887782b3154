/** Chain data as the indexer sees it after ABI decoding: headers, logs and decoded events.
    Addresses and hashes are fixed-width values; comparing their lower-case text is comparing
    the numbers, and 0 is the zero address. */
module Chain {
  import opened Wrappers

  type Address = nat
  type Hash = nat

  const ZERO_ADDRESS: Address := 0

  datatype Header = Header(number: nat, hash: Hash, parent: Hash, time: nat)

  /** The identity of a log in every event-backed table: (transaction hash, log index). */
  datatype LogKey = LogKey(tx: Hash, index: nat)

  datatype Side = Buy | Sell

  datatype CtoEvent =
    | TreasuryDeployed(token: Address, controller: Address, treasury: Address, nonce: nat, salt: Hash)
    | Proposed(id: Hash, token: Address, treasury: Address, creator: Address, controller: Address,
               previous: Address, metadataHash: Hash, metadataUri: string, nonce: nat, deadline: nat)
    | Accepted(id: Hash, acceptedAt: nat)
    | Ready(id: Hash, executeAfter: nat, executeDeadline: nat)
    | Cancelled(id: Hash)
    | Expired(id: Hash)
    | Activated(id: Hash, token: Address, treasury: Address, previous: Address)
    | FeeCheckpointed(token: Address, previous: Address, amount: nat)
    | PayoutInvalidated(token: Address)
    | RouteActivated(token: Address, treasury: Address, previous: Address)
    | FeesClaimed(token: Address, recipient: Address, amount: nat, triggeredBy: Address)
    | AcceptanceSubmitted(id: Hash)
    | AssetRegistered(asset: Address, controller: Address)
    | AssetTransferred(asset: Address, recipient: Address, amount: nat, controller: Address)
    | FeesPulled(token: Address, asset: Address, amount: nat, triggeredBy: Address)

  /** A log's decoded event. `Unknown` stands for a log without topics or with an unselected topic. */
  datatype Payload =
    | Launch(creator: Address, token: Address, curve: Address, supply: nat, allocation: nat, pool: Address)
    | Bought(token: Address, buyer: Address, acceptedGross: nat, netCurveInput: nat, tokensOut: nat,
             protocolFee: nat, creatorFee: nat)
    | Sold(token: Address, seller: Address, tokensIn: nat, grossCurveOutput: nat, netSellerOutput: nat,
           protocolFee: nat, creatorFee: nat)
    | Swap(amount0: int, amount1: int)
    | Transfer(from: Address, to: Address, value: nat)
    | Graduated(token: Address, manager: Address, tokenAmount: nat, nativeUsdc: nat, soldSupply: nat)
    | Settled(token: Address, custodian: Address, position: nat, liquidity: nat)
    | Cto(event: CtoEvent)
    | Unknown

  datatype Log = Log(block: nat, blockHash: Hash, tx: Hash, txIndex: nat, index: nat,
                     address: Address, payload: Payload)
  {
    function Key(): LogKey { LogKey(tx, index) }
  }

  /** The protocol roots an indexer trusts (`CTOProvenance`). */
  datatype Roots = Roots(factory: Address, feeManager: Address, registry: Address)
  {
    /** CTO events are trusted only when both CTO roots are configured. */
    predicate Configured() { registry != ZERO_ADDRESS && feeManager != ZERO_ADDRESS }
  }

  datatype CtoKind = RegistryKind | FeeManagerKind | TreasuryKind

  function KindOf(e: CtoEvent): CtoKind {
    match e
    case TreasuryDeployed(_, _, _, _, _) | Proposed(_, _, _, _, _, _, _, _, _, _) | Accepted(_, _) | Ready(_, _, _)
      | Cancelled(_) | Expired(_) | Activated(_, _, _, _) => RegistryKind
    case FeeCheckpointed(_, _, _) | PayoutInvalidated(_) | RouteActivated(_, _, _)
      | FeesClaimed(_, _, _, _) => FeeManagerKind
    case AcceptanceSubmitted(_) | AssetRegistered(_, _) | AssetTransferred(_, _, _, _)
      | FeesPulled(_, _, _, _) => TreasuryKind
  }
}
