# Cooket: index, metadata, live feed

Cooket indexes an EVM chain into PostgreSQL, serves the index over HTTP and overlays a live feed on
it. This project models the parts that must keep those views in agreement under reorgs, batching,
reconnects and concurrency, and proves that they do, or states exactly when they do.

How the model is laid out:

- **The store.** `Chain`, `Tables`, `Views` and `Store` model the event-sourced tables: rows keep their data
  when orphaned and only lose the canonical flag, and an upsert revives them. `Store.Store` is the database;
  `Apply` and `Rewind` are atomic transactions proved against functions of the old state. `Reorg`, `Runs` and
  `Reapply` prove what those functions mean: after any legal run the canonical rows and everything derived from
  them are a fresh in-order replay of the surviving blocks.
- **The projections.** `CtoProjection` (proposals, treasuries, ledger, token state), `Analytics` (metrics, curve
  state, price, candles), `Balances` (holders), `Swaps` (the two readings of a Uniswap delta), `Pairing` (the two
  pair validators) and `Numeric` (SQL's rounded quotients against exact integer division).
- **What the tables say.** `Ledger` states every row of the event-backed tables in the fields of the log that left it,
  `Tallies` and `MarketIndex` the derived tables as sums over the logs of the chain, and `CtoTimeline` the rebuilt CTO
  tables by the chain-latest canonical events: what they say of a row or a sum is in terms of logs and events alone.
- **Driving the store.** `Recovery` models `Run` and `recover` against a node that may switch chains between
  batches; `Discovery`, `Batches` and `CatchUp` model how a batch finds its logs and prove that neither the batch
  size nor the address chunking matters, `Acceptance` that the cut of a range does not decide what is accepted.
  `Following` puts recovery and collection together: the node may serve another chain at every poll, and the stored
  tracked logs are always those of the chain seen last. `Origins` traces canonical rows to their logs.
- **Two writers.** `Metadata` is the statement-level protocol between `FinalizeMetadata` and the launch
  transaction, as a state machine with row, draft and advisory locks.
- **The live side.** `Overlay`, `HandOff`, `LiveTail` and `RealtimePage` (the page: live trades drawn on an indexed
  snapshot against the index of the whole chain), `Realtime` and `Deduper` (catch-up after a reconnect), `Fanout`
  (the SSE broadcaster).
- **Smaller pieces.** `Pager` and `Listings` (keyset pagination), `Replacement` (what happened to a submitted
  trade), `Format` (compact amounts). `Sorting`, `Sums`, `Order` and `Wrappers` are shared helpers.

Conventions. Addresses and hashes are numbers; 0 is the zero address. Tables are maps with the SQL keys. Block
times, logs, RPC answers and market lists are parameters. Token amounts are unbounded naturals, like the `bigint`
and NUMERIC values of the source. Properties that fail in the source are stated with the condition under which they
hold, in both directions, and with a concrete failing input where the condition alone does not show one.

What the proofs say about the code's weak spots: re-applying a block changes nothing exactly when no pool or treasury
lookup of its logs would answer differently at the end of the block (`Reapply.ReapplyIsIdleIff`); CTO rebuilds forget
the past exactly when every proposal the events mention was opened (`CtoProjection.HistoryFreeIff`); the pair
validators accept non-injective matchings unless graduation keys are distinct (`Pairing.BijectionIff`); a pool swap is
collected exactly when its pool was known before the batch (`Batches.SwapCollectedIff`); a `StartBlock` beyond the
checkpoint leaves rows of another chain in place exactly when something is stored (`Recovery.InitialCheckpointIff`,
`Recovery.LateStartStrands`); a metadata link older than the creator column is safe exactly when the token shows it
already or its creator has linked another draft (`Metadata.HandOverIff`); the near view skips rows unless its rounded
order is the exact one (`Listings.NearCompleteIff`), and neither it nor the top view can be paged over HTTP, because
`apps/api/internal/api/http.go:852-867` refuses the `discovery` cursors that the repository hands out; a stored curve
price can fall by one on a buy (`Analytics.CurvePriceFollowsSide`); the page's candle prices are the query's or one
less, and the page shows prices that the query withholds exactly where a live trade falls in a bucket with an unpriced
trade (`HandOff.CandleHandOff`, `HandOff.NullShown`); a log delivered, removed and delivered again stays removed for
consumers exactly while its first delivery is remembered (`Deduper.UpToDateIff`, `Deduper.RedeliveryHidden`).

The source and its documentation disagree in one modelled place: the price queries use a virtual reserve of 1e18
(`apps/indexer/store.go:390`) where `README.md:13` gives 2,415 native USDC. The reserve is a parameter here and nothing
is claimed about the on-chain spot price.

## Model

| member | source | states |
|---|---|---|
| Store.Store.InsertEvent | apps/indexer/store.go:447-502 | one log changes the tables as the pure step says, with the trust and pool lookups read from the flagged tables |
| Store.Store.InsertLogs | apps/indexer/store.go:223-230 | the log loop: every log in order, stopping at the first error or foreign log |
| Store.Store.Apply | apps/indexer/store.go:194-248 | on success the whole new database is the specified one; on any error nothing has changed |
| Store.Store.RebuildAll | apps/indexer/store.go:231-242 | the four rebuilds, which clear and refill every derived table |
| Store.Store.Rewind | apps/indexer/store.go:141-183 | orphans every canonical row from a height up, rebuilds, moves the checkpoint below it; an error changes nothing |
| Store.CanonicalHash | apps/indexer/store.go:133-140 | there is one exactly when some canonical row has that height, and it is such a row |
| Ledger.ChainLedgered | apps/indexer/store.go:558-643 | after any accepted chain every log has exactly the event, token, curve, trade, graduation and liquidity rows that its own fields say, column by column; CTO logs count only from the configured roots and from treasuries deployed by earlier logs, swaps only at the pool of the newest earlier launch that opened it; there are no other rows |
| Ledger.RefusedIff | apps/indexer/store.go:574-580 | recording a log fails exactly for missing metadata or decimals of a shown launch, or the deltas or sender of a swap at a known pool |
| Ledger.ChainBlocks | apps/indexer/store.go:218-222 | the blocks table holds exactly the headers of the chain, field for field |
| Ledger.ChainPaired | apps/indexer/store.go:199-230 | every block of an accepted chain pairs its graduations and its activations and holds only its own logs |
| Tables.CanonicalOrphanFrom | apps/indexer/store.go:147-155 | orphaning from a height shows readers exactly the facts below it |
| Tables.CanonicalOrphanRivals | apps/indexer/store.go:208-218 | orphaning rivals of a block shows readers everything but other blocks at its height |
| Reorg.SeenBlockOpened | apps/indexer/store.go:208-222 | opening a replacement block is, for readers, dropping its rivals and adding its header |
| Reorg.TrustIsEvents | apps/indexer/cto_projection.go:15-36 | the union that decides trust says no more than the canonical deployment events |
| Reorg.LogsRefine | apps/indexer/store.go:223-230 | inserting a block into flagged tables is recording it in the flagless view, errors included |
| Reorg.ViewBelow | apps/indexer/store.go:141-155 | cutting a replayed view at a height is replaying the blocks below it |
| Reorg.CtoHistoryMembers | apps/indexer/cto_projection.go:101-104 | the rebuild query returns exactly the canonical CTO events of canonical blocks |
| CtoTimeline.HistoryOrdered | apps/indexer/cto_projection.go:101-104 | the rebuild replays the canonical CTO events in the order of block, transaction index and log index, each once |
| Reorg.RecordBacked | apps/indexer/cto_projection.go:157-161 | every visible treasury row stands on its canonical, registry-emitted event |
| Reorg.RewindRefines | apps/indexer/store.go:141-183 | after a rewind the database indexes exactly the surviving blocks below the height |
| Reorg.ApplyRefines | apps/indexer/store.go:194-248 | after an apply the database indexes exactly the survivors below the block, then the block |
| Runs.CanonicalAt | apps/indexer/store.go:133-140 | the stored hash at a height is that of the surviving block there, if any |
| Runs.StoreIsSound | apps/indexer/store.go:141-248 | every legal transaction keeps the index faithful, and a block that a replay accepts is accepted |
| Runs.RunFaithful | apps/indexer/store.go:141-248 | every legal run keeps the index faithful to its surviving blocks |
| Runs.FreshReplay | apps/indexer/store.go:194-248 | any legal chain that replays at all replays through the store block by block |
| Runs.ReorgRefinement | apps/indexer/store.go:141-248 | after any legal run of Apply and Rewind, failed ones included, rows, projections, derived tables and CTO state are those of a fresh in-order replay of the survivors, and the checkpoint covers them and names the last of them whenever it has a hash |
| Runs.RewindRestores | apps/indexer/store.go:141-183 | a rewind undoes every apply and rewind at or above its height, and restores the earlier CTO state when every proposal was opened |
| Runs.RewindAccepts | apps/indexer/store.go:141-183 | a rewind of a faithful index is never refused |
| Reapply.ReapplyIff | apps/indexer/store.go:447-502 | recording a block a second time changes nothing exactly when its lookups have settled |
| Reapply.ReapplyIsIdleIff | apps/indexer/store.go:194-248 | applying the last block again succeeds and keeps every canonical row exactly when its lookups have settled; derived tables then stay too |
| Reapply.WellOrderedSettles | apps/indexer/store.go:447-502 | a block where no swap precedes a projected launch and no treasury event its deployment has settled |
| Reapply.EarlySwapReappears | apps/indexer/store.go:722-731 | a swap logged before its token's launch is skipped the first time and not the second |
| CtoProjection.RebuildCto | apps/indexer/cto_projection.go:95-133 | clears the flags and replays the canonical events in order, refusing ambiguous routes |
| CtoProjection.RecordsAreTheEvents | apps/indexer/cto_projection.go:157-202 | treasuries, ledger, assets, transfers and pulls are exactly the replayed events |
| CtoProjection.ProposalRow | apps/indexer/cto_projection.go:162-178 | untouched proposals keep their row; opened ones are rebuilt from scratch |
| CtoProjection.RevivedOrAbsent | apps/indexer/cto_projection.go:171-211 | a lifecycle event without its proposal revives an orphaned row, or leaves nothing |
| CtoProjection.RebuildForgets | apps/indexer/cto_projection.go:95-133 | when every proposal is opened the rebuild does not depend on prior table contents |
| CtoProjection.HistoryFreeIff | apps/indexer/cto_projection.go:156-211 | history independence holds exactly when every proposal the events mention was opened by a CTOProposed |
| CtoProjection.ProposalsFollowEvents | apps/indexer/cto_projection.go:162-211 | a proposal's visible state is the one its last lifecycle event gives it |
| CtoProjection.StatesFollowRoutes | apps/indexer/cto_projection.go:177-185 | a token's state comes from the last activation whose transaction activated its fee route, and exists only then |
| CtoTimeline.ProposalTimeline | apps/indexer/cto_projection.go:162-211 | every column of a visible proposal is what the chain-latest event of its kind since the proposal was last opened says, read off the canonical events themselves |
| CtoTimeline.RecordsTimeline | apps/indexer/cto_projection.go:157-202 | treasuries, ledger, assets, transfers and pulls hold one row per canonical event that notes one, field for field |
| CtoTimeline.StatesTimeline | apps/indexer/cto_projection.go:177-185 | a token state is that of the chain-latest activation whose transaction activated its fee route |
| CtoTimeline.RebuildRefusedIff | apps/indexer/cto_projection.go:177-185 | a rebuild is refused exactly when some activation has two fee routes of one fee manager in its transaction |
| CtoTimeline.IndexChronicle | apps/indexer/cto_projection.go:95-133 | all of this for the tables of any faithful index, in terms of the canonical events it stores |
| Pairing.MarkMatches | apps/indexer/indexer.go:416-425 | counts the partners of one opener and marks exactly them |
| Pairing.MatchAll | apps/indexer/indexer.go:416-433 | accepts exactly when each opener has one partner and no partner is left over |
| Pairing.ValidateGraduationPairs | apps/indexer/indexer.go:379-435 | accepts exactly the identified, paired graduation lists |
| Pairing.ValidateCtoActivationPairs | apps/indexer/cto_projection.go:43-87 | accepts exactly the paired activation lists, or anything without configured roots |
| Pairing.BijectionIff | apps/indexer/indexer.go:416-433 | matching is a bijection exactly when the list is accepted and opener keys are distinct |
| Pairing.NotInjective | apps/indexer/indexer.go:416-433 | two equal graduations share one settlement and are accepted |
| Pairing.BatchIffSlices | apps/indexer/indexer.go:370-376 | accepting a batch is accepting every per-block slice that Apply validates again, for both validators |
| Pairing.GraduationsMean | apps/indexer/indexer.go:379-435 | a list passes exactly when every graduation has one settlement at its manager, of its token, in its transaction and block, no settlement stands alone, and nobody is the zero address |
| Pairing.ActivationsMean | apps/indexer/cto_projection.go:43-87 | a list passes exactly when every activation of the registry has one fee route of the fee manager with the same token, treasury, previous recipient, transaction and block, and no fee route stands alone |
| Analytics.WindowIsAggregate | apps/indexer/store.go:279-289 | the running window sums at the last trade are the aggregated curve state |
| Analytics.CurveSettlesAtLastCurveTrade | apps/indexer/store.go:418-423 | prefix sums at the last curve trade equal the aggregated sold supply and reserve |
| Analytics.LastPriceIsCurrent | apps/indexer/store.go:384-411 | the last trade's price is the current price unless a curve trade follows a pool trade |
| Analytics.PriceIsOfPrefix | apps/indexer/store.go:418-427 | the price after a trade is a pool trade's own or that of the curve as the trades up to it left it |
| Analytics.CandlePrices | apps/indexer/store.go:434-441 | a candle opens at the price after its first trade, closes at that after its last, its high and low are the highest and lowest after any, and it has prices exactly when there is one after each |
| Analytics.CandleBounds | apps/indexer/store.go:434-441 | in every priced bucket low <= open, close <= high, and both extremes are real trade prices |
| Analytics.BucketsConserve | apps/indexer/store.go:429-432 | every additive column of the buckets sums to the token's metric |
| Analytics.BucketMonotone | apps/api/internal/api/repository.go:796-799 | bucket starts never pass their times and never run backwards |
| Analytics.NewestCloseIsCurrentPrice | apps/api/internal/api/repository.go:795-827 | without a curve trade after a pool trade, the newest bucket holds the newest trade, and if that bucket is priced its close is the current price |
| Analytics.CurveTradeAfterPoolTrade | apps/indexer/store.go:399-425 | after a pool trade a curve buy reprices the bucket but not the metrics: the two prices differ, whatever digits are kept |
| Analytics.CurvePriceFollowsSide | apps/indexer/store.go:390-391 | whatever digits SQL keeps, the ceil price never falls on a curve buy nor rises on a curve sell, except by one exactly when only the higher quotient loses its fraction to rounding and the exact prices are equal |
| Analytics.BuyLowersPrice | apps/indexer/store.go:390 | a buy of one unit lowers the stored price, with PostgreSQL's digits and the source's reserve |
| Analytics.SameDigitsNeverSlip | apps/indexer/store.go:390-391 | two prices kept to the same digits never slip |
| Tallies.ColumnsTally | apps/indexer/store.go:279-297 | sold supply is the tokens bought less the tokens sold, and the reserve the net curve inputs less the gross curve outputs, summed over the logs of the chain; a curve is graduated exactly when a Graduated log names its token |
| Tallies.PriceIs | apps/indexer/store.go:384-411 | without pool swaps the price is the ceil of (virtual reserve + reserve) * 1e18 over the unsold virtual tokens, of those sums; otherwise that of the newest swap at the token's pool |
| Tallies.MetricsAreTallies | apps/indexer/store.go:249-278 | trade, buy and sell counts, volume, fees and distinct traders are sums over the logs, and the diluted value prices the newest launch's supply |
| Tallies.CandlesAreTallies | apps/indexer/store.go:429-432 | the counts, volume and traders of an hour are those of the logs of its blocks |
| Numeric.FloorSqlExact | apps/indexer/store.go:399-408 | SQL's floor of a rounded quotient is the exact floor, or one more exactly when the kept digits round up |
| Numeric.CeilSqlExact | apps/indexer/store.go:390 | the SQL ceil is the exact ceil, or one less exactly when the kept digits lose the fraction |
| Numeric.CeilSqlMonotone | apps/indexer/store.go:390-391 | ceilings kept to the same digits are ordered as the exact quotients |
| Balances.StoredBalancesConserve | apps/indexer/store.go:306-338 | stored balances are positive and sum to minted minus burned exactly when no account overdraws |
| Balances.SeedEqualsCollectedMint | apps/indexer/store.go:324-329 | the launch seed stores the same balances as a collected constructor mint, wherever in the history the mint stands |
| Balances.AccountBalance | apps/indexer/store.go:306-338 | an account is stored exactly when what it received less what it sent, with the launch's supply for a curve whose mint was not collected, is positive, and then with that |
| MarketIndex.HoldersTally | apps/indexer/store.go:306-338 | the same over the logs of the chain: transfers at the token's address, launches that name it |
| MarketIndex.RunSums | apps/indexer/store.go:141-248 | after any legal run of Apply and Rewind the canonical rows are those of the logs of the surviving blocks, and the curve columns, metrics, hourly buckets and holder balances those sums over them, for exactly the launched tokens |
| Swaps.ReadingMeansExchange | apps/indexer/store.go:748-763 | a reading names the side the pool paid out and the one it took in, for exactly the valid deltas |
| Swaps.ReadersAgree | apps/realtime/internal/market/decoder.go:94-105 | lower-case hex comparison and byte comparison read every swap alike, whatever the checksum casing |
| Swaps.ByteOrderIsNumeric | apps/realtime/internal/market/decoder.go:97-100 | byte order of equal-length addresses is the order of their values |
| Swaps.NormalizeIsBoth | apps/indexer/store.go:754-761 | comparing address values is what both readers do |
| Recovery.AgreeBelow | apps/indexer/indexer.go:563-587 | hash chains agreeing at one height agree below it |
| Recovery.InitialCheckpointIff | apps/indexer/indexer.go:557-562 | the head check puts every stored row on the node's chain, whatever that chain is, exactly when the start block is not beyond the checkpoint or nothing is stored |
| Recovery.OtherChain | apps/indexer/indexer.go:557-562 | next to the chain that carries the rows there is one of any length that shares no hash with them |
| Recovery.LateStartStrands | apps/indexer/indexer.go:96-107 | on such a chain a later start block passes the head check and the parent check, and if the store takes it, rows off the node's chain stay canonical |
| Recovery.Indexer.FindAgreement | apps/indexer/indexer.go:563-585 | terminates at the highest stored height that agrees with the node, or at 0 |
| Recovery.Indexer.Recover | apps/indexer/indexer.go:563-587 | always rewinds to just above that height, and exactly the blocks up to it survive |
| Recovery.RecoverLands | apps/indexer/indexer.go:573-584 | every remaining block row above height 0 then lies on the node's chain |
| Recovery.Indexer.CheckHead | apps/indexer/indexer.go:96-107 | fails exactly when the node lacks the position's height, changing nothing; a confirmed position stays and nothing is written, any other is recovered; afterwards every stored block lies on the node's chain, though stored heights are sparse |
| Recovery.Indexer.ApplyBlock | apps/indexer/indexer.go:163-179 | the whole outcome of one height: database, position and survivors, or the reason it stopped |
| Recovery.AdvanceKeeps | apps/indexer/indexer.go:163-179 | a height that the store takes leaves all rows on the node's chain with this block on top, and the database a replay of its survivors |
| Recovery.Indexer.ApplyBatch | apps/indexer/indexer.go:146-180 | the loop over a batch's heights ends where the fold over them ends, and unless it is stopped it stores exactly the batch's blocks |
| Recovery.BatchStores | apps/indexer/indexer.go:149-162 | a batch that is not stopped stores exactly its first, its last and its event-bearing blocks, in order |
| Recovery.BatchStops | apps/indexer/indexer.go:163-176 | a batch stops only for a missing header, a parent mismatch or the refusal of the next block it has to store, in the state it reached |
| Recovery.BatchKeeps | apps/indexer/indexer.go:146-180 | every prefix of a batch keeps the rows on one chain and the database a replay of its survivors |
| Recovery.Indexer.OneBatch | apps/indexer/indexer.go:108-181 | a finished batch ends at its last height with all rows on the node's chain and exactly its blocks new; a stopped one has its cause |
| Recovery.Indexer.Target | apps/indexer/indexer.go:89-95 | the greatest height with that many confirmations and within the stop block, or 0 |
| Recovery.Indexer.ToTarget | apps/indexer/indexer.go:108-181 | the batch loop ends at the target or where a batch stopped, never beyond it |
| Recovery.Indexer.Poll | apps/indexer/indexer.go:85-181 | a poll that stores anything ends at a height with `confirmations` blocks above it at the head it read and not beyond the stop block, errors included; one that succeeds reaches the highest such height, while the node may switch chains between batches; otherwise it stops for a named cause |
| Recovery.NextIsLegal | apps/indexer/indexer.go:163-179 | the step that Run takes is always a legal one |
| Recovery.Indexer.Run | apps/indexer/indexer.go:61-191 | at every exit the checkpoint keeps its promise, the database is the replay of its surviving blocks and every block stored was confirmed at some head; after a good poll all rows lie on the chain last served |
| Discovery.CanonicalLogs | apps/indexer/indexer.go:448-474 | merges logs by identity, refused exactly when two different logs share one, into chain order |
| Discovery.FilterLogsByAddressChunks | apps/indexer/indexer.go:36-59 | the answer is the unchunked query's answer for every chunk size |
| Discovery.FindLaunches | apps/indexer/indexer.go:235-257 | accepts exactly non-zero, non-contradictory launches of at most 32 tokens |
| Discovery.DiscoverLaunchLogs | apps/indexer/indexer.go:234-308 | adds exactly the transfers, curve trades and graduations of the batch's launches |
| Discovery.FindGraduations | apps/indexer/indexer.go:322-344 | accepts exactly named graduations, at most 32 |
| Discovery.DiscoverGraduationSettlements | apps/indexer/indexer.go:322-377 | adds exactly the settlements at declared managers in the same block, and pairs them |
| Discovery.DiscoverTreasuryLogs | apps/indexer/cto_discovery.go:135-178 | succeeds exactly when every deployment is genuine and adds exactly the treasuries' own events |
| Batches.CollectBatch | apps/indexer/indexer.go:114-141 | what the four stages of one batch collect together, and why they refuse |
| Batches.TrackedMeans | apps/indexer/indexer.go:234-308 | the tracked logs are those of the three roots and, from a factory launch on, its token's transfers, its curve's buys, sells and graduations, the settlements these name in their block, and the four kinds of events of a treasury from its deployment on |
| Batches.BatchComplete | apps/indexer/indexer.go:114-141 | a batch whose scan covers the past collects exactly the tracked logs of its range, in order |
| Batches.SwapCollectedIff | apps/indexer/indexer.go:269-284 | a swap is collected exactly when its pool was known before the batch |
| Batches.SwapNeedsSmallBatch | apps/indexer/indexer.go:269-284 | one batch over a launch and a later swap of its pool loses the swap, two batches collect it |
| Batches.BatchPaired | apps/indexer/indexer.go:370-376 | treasury events do not disturb the graduation pairs of a batch |
| CatchUp.PoolSwapCollected | apps/indexer/store.go:19-66 | a factory pool's swaps are collected from the first batch after its launch's |
| Batches.TrackedJoin | apps/indexer/indexer.go:108-113 | where a range is cut does not matter |
| CatchUp.ScanContracts | apps/indexer/store.go:19-66 | the configured roots and every canonical token, curve, pool and treasury, excluded tokens through their launch events |
| CatchUp.LaunchReachable | apps/indexer/store.go:25-45 | an applied launch's token, curve and pool are in reach of the next scan, excluded or not |
| CatchUp.DeploymentReachable | apps/indexer/store.go:31-33 | an applied deployment's treasury is in reach of the next scan |
| CatchUp.ScanCovers | apps/indexer/store.go:19-66 | after catching up to a height the next scan covers everything below it |
| CatchUp.ApplyNumbers | apps/indexer/indexer.go:146-180 | stores a batch block by block and keeps the index faithful; stopped or not, exactly the batch's logs up to the last block stored are new, and an error is the store's answer to the block that was tried |
| CatchUp.OneBatch | apps/indexer/indexer.go:108-181 | reads the scan set back, collects and stores: every tracked log up to the height reached is stored, which is the batch's end on success; the store never refuses a collected batch for its graduation pairs |
| CatchUp.ToTarget | apps/indexer/indexer.go:108-181 | for every batch size and chunking the collected tracked logs up to a target are the chain's, in order; every one up to the height reached is stored, errors included; where watched contracts behave, collection stops exactly at tracked logs that do not pass or at too many graduations |
| CatchUp.NeverUnpaired | apps/indexer/indexer.go:370-376 | what passed the pairing check of a batch passes it again in every block that the store tries |
| CatchUp.ScanKnows | apps/indexer/store.go:19-66 | after catching up the scan set is what was launched or deployed, and nothing else |
| CatchUp.RefusalNeedsSmallBatch | apps/indexer/indexer.go:269-284 | a swap without valid deltas is lost by one batch over its pool's launch and refused where two batches collect it |
| Acceptance.SoundIff | apps/indexer/indexer.go:114-141 | a batch passes collection exactly when the tracked logs of its range do |
| Acceptance.BatchSizesAlike | apps/indexer/indexer.go:108-113 | while the bound on launches holds over the range, all batches of one size pass exactly when all batches of another do |
| Following.CheckHead | apps/indexer/indexer.go:96-107 | on whichever chain the node serves, what survives the check is on it and complete up to the position |
| Following.Follow | apps/indexer/indexer.go:85-181 | however a poll ends, the stored blocks are of the chain it saw, every tracked log of it up to the height reached is stored, and that height is confirmed and within the stop block; a poll that succeeds reaches the highest such height |
| Following.FollowAll | apps/indexer/indexer.go:61-191 | the same after any number of polls, each on another chain if the node so serves |
| Metadata.NextKeeps | apps/api/internal/api/repository.go:184-256 | every statement of either writer keeps the protocol's invariant |
| Metadata.ReconcileKeeps | apps/indexer/store.go:646-711 | reconciliation under the claim lock hands over the one linked draft |
| Metadata.CommittingKeeps | apps/api/internal/api/repository.go:230-236 | committing a link while the launch is unknown cannot strand it |
| Metadata.UpdatedKeeps | apps/api/internal/api/repository.go:244-255 | a call that finds the token hands its draft over and repairs a failed reconciliation |
| Metadata.CommitApplyKeeps | apps/indexer/store.go:598-603 | committing the launch keeps the promise, failed reconciliations set aside |
| Metadata.MetadataHandOver | apps/api/internal/api/repository.go:184-256 | in every interleaving a canonical reconciled launch carries its creator's draft of the same name, symbol and supply, at most one draft is linked per (token, transaction, creator), and only such a draft is ever shown |
| Metadata.ShownByItsDraft | apps/api/internal/api/repository.go:235-255 | from any database at rest without legacy links, whatever a token shows is the presentation of a draft with its claim, its launch's creator, name, symbol and supply |
| Metadata.CallsWriteOnlyAgreeing | apps/api/internal/api/repository.go:241-255 | in any run a call writes to a token only by committing with the launch's creator, name, symbol and supply, and then only its draft's presentation to that token |
| Metadata.MismatchRefused | apps/api/internal/api/repository.go:235-243 | once the token is indexed a call goes on exactly when all four fields agree, and otherwise ends without a write |
| Metadata.ReconcilesTheOne | apps/indexer/store.go:664-700 | reconciliation writes a presentation exactly when one draft describes the launch, and then that one's |
| Metadata.CallAlone | apps/api/internal/api/repository.go:184-256 | an undisturbed call links its draft and, when the launch is indexed, hands it to the token; otherwise it changes nothing else |
| Metadata.LaunchAlone | apps/indexer/store.go:582-603 | an undisturbed launch takes over the draft that its creator has linked |
| Metadata.FailedFailed | apps/indexer/store.go:598-603 | a launch counts as unreconciled only after its reconciliation failed |
| Metadata.HandOverIff | apps/api/internal/api/repository.go:184-256 | from any database at rest the promise holds in every run exactly when it holds now and every link without a creator is shown already or rivalled by a link of the launch's creator |
| Metadata.LegacyBreaks | apps/api/internal/api/repository.go:224-228 | any other link without a creator, indexed or not, has an interleaving that loses it |
| Metadata.WriteCreatorKeeps | db/migrations/014_wallet_holdings_and_metadata_claims.sql:5-7 | recording a creator under the unique index, with or without the claim lock, keeps the invariant |
| Metadata.NextSources | apps/api/internal/api/repository.go:184-256 | without legacy links no statement shows what the launch's creator did not link |
| Overlay.BucketsAligned | apps/web/src/lib/token-realtime.ts:98-100 | the page and SQL cut time alike, Monday weeks included, and a bucket contains its trades |
| Overlay.SortedOrdered | apps/web/src/lib/token-realtime.ts:82 | live trades are taken untimed first, then by time, block, log index and transaction |
| Overlay.DecimalsAlike | apps/web/src/lib/token-realtime.ts:83-84 | equal amounts at 6 and at 18 decimals draw the same volume and the same price, the greatest whole one |
| Overlay.MetricsHandOff | apps/web/src/lib/token-realtime.ts:87-90 | overlaying the pool trades after any cut-off gives the indexer's volume and count, and its price and diluted value exactly when no kept digit rounds up |
| Overlay.PriceCarries | apps/indexer/store.go:399-411 | an input where the kept digits carry: the page and the index differ by one |
| Overlay.OverlayCandles | apps/web/src/lib/token-realtime.ts:93-105 | draws every timed, priced trade into its bucket and lists buckets strictly ascending |
| Overlay.ListedRoundTrip | apps/web/src/lib/token-realtime.ts:94-104 | reading a listed chart back gives the chart |
| Overlay.OverlayInParts | apps/web/src/lib/token-realtime.ts:93-105 | overlaying in two chain-ordered parts is overlaying once |
| Overlay.ArrivalOrderFree | apps/web/src/lib/token-realtime.ts:78-82 | arrival order does not matter |
| Overlay.OverlaySane | apps/web/src/lib/token-realtime.ts:101-102 | price bounds survive every overlay |
| Overlay.OverlayConserves | apps/web/src/lib/token-realtime.ts:93-105 | trade counts and volume are conserved over the chart |
| HandOff.SwapReadersAgree | apps/realtime/internal/market/decoder.go:78-114 | the live event and the trades row of one pool log agree on side and amounts, refusals included |
| HandOff.CandleHandOff | apps/web/src/lib/token-realtime.ts:93-105 | live pool trades drawn on indexed candles, for every interval and cut-off: buckets, counts and volume are the query's, each price is the query's or one less, columns are null alike except where a live trade falls in a bucket with a missing stored price, and a bucket agrees exactly when no carried quotient opens it, closes it or decides an extreme |
| HandOff.ChartAgreesIff | apps/web/src/lib/token-realtime.ts:93-105 | the whole chart agrees exactly when every bucket does so |
| HandOff.ExactHandOff | apps/web/src/lib/token-realtime.ts:93-105 | exact quotients on priced candles draw exactly what the query will return |
| HandOff.UnpricedShown | apps/api/internal/api/repository.go:816-819 | in a bucket with a missing stored price a live trade is shown where the query returns null |
| HandOff.NullShown | apps/api/internal/api/repository.go:816-819 | such a bucket, for every interval and whatever digits are kept |
| HandOff.OpensLow | apps/web/src/lib/token-realtime.ts:101 | a live trade opens its bucket one below the query's |
| LiveTail.HistoryOnChain | apps/web/src/lib/token-realtime.ts:82 | the stored order of a token's trades is the page's order, when block times and log indexes rise |
| LiveTail.HistorySplits | apps/indexer/store.go:194-248 | the index of the blocks up to any height holds exactly the part of the history up to it |
| LiveTail.PoolTradeIsLive | apps/realtime/internal/market/decoder.go:78-114 | the live event of a stored pool trade is the decoded log it was made from |
| LiveTail.StoredHandOff | apps/web/src/lib/token-realtime.ts:87-105 | at any block of any chain the snapshot overlaid with the live pool trades above it stands to the index of the whole chain as the two hand-offs say, metrics and candles |
| RealtimePage.FloorIsSafe | apps/web/src/lib/token-realtime.ts:19-21 | there is a floor exactly when all surfaces reported, and it is the highest block all of them reached |
| RealtimePage.AdvanceRaises | apps/web/src/lib/token-realtime.ts:23-30 | readings only raise their own mark; a missing chart reading starts a new generation |
| RealtimePage.MarksFollowReports | apps/web/src/lib/token-realtime.ts:23-30 | over any sequence of reports a surface's mark is the highest block it reported, for the chart since it last had none |
| RealtimePage.RetiredIsHighestFloor | apps/web/src/lib/token-realtime.ts:43-54 | what is retired is the highest floor there has been |
| RealtimePage.ReconciledIs | apps/web/src/lib/token-realtime.ts:78-82 | a surface overlays exactly the trades above its snapshot that the snapshot does not list, in order |
| RealtimePage.RetiredIsCovered | apps/web/src/lib/token-realtime.ts:48-54 | nothing is retired that some surface never had in a snapshot |
| RealtimePage.RetirementInvisible | apps/web/src/lib/token-realtime.ts:78-81 | forgetting at a floor changes nothing for a surface whose snapshot has reached it |
| RealtimePage.ShownOnce | apps/web/src/lib/token-realtime.ts:43-81 | such a surface shows every known trade exactly once, in the snapshot or in the overlay |
| RealtimePage.BelowFloorMisses | apps/web/src/lib/token-realtime.ts:75-81 | a surface below the floor misses a retired trade its snapshot lacks |
| RealtimePage.LiveFeed.Retire | apps/web/src/lib/token-realtime.ts:48-54 | the watermark only rises and the buffer keeps exactly the trades above it |
| RealtimePage.LiveFeed.ReceiveRemoval | apps/web/src/lib/token-realtime.ts:65-66 | a removal takes out exactly that identity |
| RealtimePage.LiveFeed.ReceiveTrade | apps/web/src/lib/token-realtime.ts:64-70 | duplicates and retired trades change nothing shown; a new trade is appended, evicting at most the oldest of 256 |
| Realtime.Service.Replace | apps/realtime/internal/market/registry.go:26-52 | refuses exactly the lists with an invalid market or with a token or source named twice, and then changes nothing |
| Realtime.AcceptableMeans | apps/realtime/internal/market/registry.go:26-52 | these are the lists in which every market names a token, a curve, a pool once graduated and a start block, and no two share a token or a followed address |
| Realtime.Service.Reconcile | apps/realtime/internal/service/service.go:194-223 | new or changed sources become pending, vanished ones stop; the first load queues nothing |
| Realtime.Service.QueueReconnectBackfill | apps/realtime/internal/service/service.go:182-192 | queues every registered source from the last delivered block, keeping earlier boundaries |
| Realtime.SourceMeans | apps/realtime/internal/market/abi.go:29-38 | a market is followed at its curve for buys and sells, and once graduated at its pool for swaps |
| Realtime.ReplayOrdered | apps/realtime/internal/service/service.go:291-302 | a replay is handed over by block, transaction index and log index |
| Realtime.Service.HandleLog | apps/realtime/internal/service/service.go:322-355 | handles exactly decodable logs, publishing each at least once, and the boundary only rises |
| Realtime.Service.ReplaySource | apps/realtime/internal/service/service.go:271-310 | replays a whole window or fails; a window over 512 blocks or in the future is an error |
| Realtime.Service.BackfillPending | apps/realtime/internal/service/service.go:256-314 | a source leaves the pending set only after a full replay to the head |
| Realtime.Service.Connect | apps/realtime/internal/service/service.go:102-135 | after a successful reconnect every buy and sell at a listed curve and every swap at a graduated market's pool, from its start or the last delivered block up to the head read after subscribing, has been handled, and no such window was longer than 512 blocks |
| Deduper.Deduper.Accept | apps/realtime/internal/market/dedup.go:22-43 | a delivery passes exactly when its key is not among the last `capacity` accepted |
| Deduper.SpacingKept | apps/realtime/internal/market/dedup.go:31-42 | equal accepted keys are more than `capacity` acceptances apart |
| Deduper.UpToDateIff | apps/realtime/internal/market/dedup.go:22-43 | consumers know the newest state of every log throughout exactly when no delivery returns a log to a state among the last `capacity` accepted |
| Deduper.RedeliveryHidden | apps/realtime/internal/market/dedup.go:22-43 | a log delivered, removed and delivered again is left removed exactly when fewer than capacity - 1 others came between |
| Fanout.Broadcaster.Subscribe | apps/realtime/internal/sse/broadcaster.go:30-45 | a new id and empty queue, or a closed channel exactly when 1024 are subscribed |
| Fanout.Broadcaster.Publish | apps/realtime/internal/sse/broadcaster.go:47-65 | everyone with room gets the event, everyone else is removed without it; what was taken and queued stays a contiguous stretch of history |
| Fanout.Broadcaster.Receive | apps/realtime/internal/sse/broadcaster.go:30-45 | taking the oldest queued event keeps that stretch |
| Fanout.Broadcaster.Remove | apps/realtime/internal/sse/broadcaster.go:67-74 | closes a channel once and leaves its queue readable |
| Fanout.PublishedGapFree | apps/realtime/internal/sse/broadcaster.go:47-65 | publishing keeps every subscriber gap-free and within its buffer |
| Pager.FetchPage | apps/api/internal/api/repository.go:412-434 | one page: LIMIT limit + 1, scan, truncate |
| Pager.CompleteIffAgrees | apps/api/internal/api/repository.go:401-435 | walking pages under any limits yields every row once and stops exactly when WHERE is strictly after the cursor |
| Listings.TokensComplete | apps/api/internal/api/repository.go:407-433 | token lists page completely |
| Listings.TopComplete | apps/api/internal/api/repository.go:455-460 | the top view pages completely |
| Listings.TrendingComplete | apps/api/internal/api/repository.go:512-519 | the trending list pages completely |
| Listings.LedgersComplete | apps/api/internal/api/cto_repository.go:120-127 | proposals and the three ledgers page completely |
| Listings.TradesCompleteIff | apps/api/internal/api/repository.go:681-691 | trades and activity page completely exactly when transactions at one position are in hash order |
| Listings.TradesComplete | apps/api/internal/api/repository.go:681-691 | which holds when a block position names one transaction |
| Listings.CrossedTradesLost | apps/api/internal/api/repository.go:681-691 | and fails for two crossed rows |
| Listings.NearCompleteIff | apps/api/internal/api/repository.go:461-467 | whatever digits each quotient keeps, the near view pages completely exactly when its rows stand in exact-ratio order with exact ties in launch order |
| Listings.NearCollisions | apps/api/internal/api/repository.go:461-467 | where all quotients keep the same digits, exactly when no two ratios collapse into one quotient against their launch order |
| Listings.NearRowLost | apps/api/internal/api/repository.go:461-467 | with PostgreSQL's 20 digits two curves one raw token apart lose the fuller one |
| Listings.MixedDigitsLost | apps/api/internal/api/repository.go:461-467 | a row is lost in a list whose quotients keep 20 and 24 digits too |
| Replacement.FindUse | apps/web/src/lib/contracts.ts:415-416 | the first transaction of a block with the sender and nonce, if there is one |
| Replacement.Scan | apps/web/src/lib/contracts.ts:413-430 | stops at the first block that lists a transaction with the sender and nonce, and reports it as cancelled, repriced or replaced by its recipient, value and input; otherwise moves on or gives up at the head |
| Replacement.RecoverTransactionReceipt | apps/web/src/lib/contracts.ts:377-424 | reports a receipt, waits while the nonce is unused, otherwise scans; what it remembers and compares with are the submitted transaction's own fields |
| Replacement.FoundInTime | apps/web/src/lib/contracts.ts:404-423 | each inconclusive call advances by exactly 128 and not past the head; block b is found within ceil((b - start + 1) / 128) calls |
| Replacement.NeverLooksBack | apps/web/src/lib/contracts.ts:408-423 | a use before the first scanned block is never found |
| Format.DigitsRoundTrip | apps/web/src/lib/format.ts:73-75 | printed digits read back as the number |
| Format.GroupedRoundTrip | apps/web/src/lib/format.ts:155-159 | grouping only adds commas |
| Format.CommasEveryThird | apps/web/src/lib/format.ts:155-159 | counted from the right exactly every fourth character is a comma, and none comes first |
| Format.MantissaShort | apps/web/src/lib/format.ts:73-75 | no leading zero but before the point, a point only before decimals, no trailing zero, at most two decimals |
| Format.ShownReads | apps/web/src/lib/format.ts:73-75 | a printed amount reads back as its sign, hundredths and suffix |
| Format.FormatCompactAmount | apps/web/src/lib/format.ts:62-78 | terminates on every integer; the text reads as an amount within half a hundredth, below 1000 unless T, or is the explicit tiny form of an amount below half a hundredth |

## Left out

- Runs.ReorgRefinement: the CTO tables agree with a fresh replay when every proposal the events mention was opened; otherwise the source itself revives orphaned rows (`CtoProjection.HistoryFreeIff`).
- Recovery.Indexer.Run: the node keeps one chain while one batch is read; the source checks parents only at a batch's first block, so a switch inside a batch can leave a stored block off the chain.
- Ledger.ChainLedgered: a transaction hash and log index name one log of the chain, as they do on any real one.
- MarketIndex.RunSums: the same of the surviving blocks; the prices of hourly candles are stated over the stored history (`Analytics.CandlePrices`), not over the logs.
- Following.FollowAll: the node keeps one chain during one poll; without a stored hash nothing tracked may lie before the position on any chain, which holds when indexing starts at height 0 or before the protocol was deployed.
- Acceptance.BatchSizesAlike: collection only; what the store makes of a batch can depend on its size through pool swaps (`CatchUp.RefusalNeedsSmallBatch`), and graduations are counted as listed, repeated finds included.
- CatchUp.ToTarget: pool swaps are not tracked logs, because a pool launched in the same batch is not queried (`Batches.SwapCollectedIff`); tracked logs assume launches come from the factory.
- Metadata.MetadataHandOver: a launch's identity is a function of (token, transaction), one token row per claim; the metadata-resetting CASE columns for a changed identity are not modelled. Deadlock victims appear as aborted calls and failed reconciliations.
- Overlay.MetricsHandOff: pool trades only, since for curve trades the page's price and volume differ from the index by design.
- HandOff.CandleHandOff: pool trades only; the unique-trader column is only shown to stay the indexed one, because live events do not carry it. The query's range and limit are left out.
- RealtimePage.ShownOnce: one token's page; a surface's snapshot is a set of identities and is assumed to list what is known up to its block. "Known" means received, not removed and not evicted.
- Listings.TopComplete: of the repository function; the HTTP handler refuses its cursors (`apps/api/internal/api/http.go:852-867`). The same holds for the near view.
- Realtime.Service.Connect: one reconnect at a time; logs still buffered on a replaced subscription are dropped by the source, so nothing is claimed over a whole connection.
- Realtime.Service.Replace: a market's stage is one of the two known ones.
- Replacement.FoundInTime: the nonce is used in one block only and every call sees it; errors while reading blocks abort a call.
- PostgreSQL NUMERIC scale: how many digits a division keeps is a parameter of every price; `Numeric.PostgresDigits` gives it for integers in the concrete inputs.
- The columns for recent trades, latest trade and bucket provenance, fee rows, and the block-number keys of proposals other than their lifecycle block.
- CTO append-only tables are one keyed table of records, and the database is one field of the store.
- Constraint violations other than an ambiguous fee route, which abort a transaction in the source, are not modelled.
- ABI decoding, hashing, signature recovery, JSON and cursor encoding: decoded events and cursor rows are data, block hashing is injective.
- RPC retries, wall-clock timers, reconnect delays, environment parsing, HTTP and rendering.
- The on-chain checks of a deployed treasury are one predicate of the deployment log.
- captureTradeRecovery and the receipt parsing after a scan.
- Solidity contracts: curve quotes, fee splits and graduation settlement.
