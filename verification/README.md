# Energy market: matching, settlement and ledger

A Dafny model of an energy-trading service and proofs about it. `dafny verify dfyconfig.toml`
checks the whole project.

**Continuous matching.** Sells rest in per-zone ordered books. Each buy, best bid first, gathers
candidates in landed-cost order (ask plus wheeling plus loss) by a lazy k-way merge that stops once
it has enough, drains them against a per-link flow ledger, and is rebuilt once with a full scan when
it was cut short and stayed under-filled. Fill-or-kill buys are simulated on a copy of the flow
ledger first. `CdaSpec` says what a cycle computes; `CdaGather` and `CdaEngine` are the in-place
algorithms, proved to compute exactly that; `CdaRefinement` compares it with the naive matcher that
sorts every eligible sell and drains, and `CdaExactness` says exactly for which buys and which grids
the two agree; `CdaSafety` holds conservation, flow safety, fill-or-kill and "no crossing pair
survives".

**Uniform-price auction.** Each zone's demand and supply meet in a two-pointer sweep and settle at
one midpoint price. `Auction` is the in-place algorithm, `AuctionSpec` its specification;
`AuctionTheorems`, `AuctionZones` and `AuctionSafety` hold volume optimality, rationality, priority,
zone independence and conservation, and `AuctionExactness` the exact condition of the optimality.

**Settlement.** Rows are claimed, minted in batches, finalized, retried, parked or reclaimed. The
chain, the write outcomes and the clock are one oracle, the `World`, indexed by the number of
external calls made so far, so it may answer each call differently. `Settlement` is the service as a
class, `SettlementSpec` what one pass does, `SettlementTheorems` progress and isolation of bad
settlements. `MintProtocol` interleaves passes, RPC calls and stale reclaims step by step, and
`PassReplay` shows that every pass of the service is a run of it.

**Money.** Energy is counted in 1e-28 kWh, prices in 1e-9, products in 1e-37, charges in 1e-41, so
every charge is a whole number. `Charges` holds the charge split and the price floor, `OrderPolicy`
admission and funding, `Money` what admission promises against what the engines can output, and
`FundingExactness` exactly when the funds required of a buyer cover every run.

**Ledger.** `Crossing` converts order rows for the engines; `LedgerSpec` is the running system: order
and settlement rows, a matcher and a clearing worker whose reads, bookings and cancellations
interleave with placements, cancels, refusals and expiries, any write of a worker failing at will.
`LedgerTheorems` proves what holds over every run; `TradingServices` writes the cycles out as methods
over the rows, and `CycleRuns` shows that each is a run of that system. `SweepBalance` says exactly
when one cycle leaves a cancelled immediate order's row in agreement with its settlements, and
`LostFills` accounts for every order's fill over every run; `LedgerOrigins` says
where trades and statuses come from: the rates of a trade, who could trade when it was matched, and
what may close an order.

**Market-data hub.** `ZoneHubs` is the per-zone sequencing protocol, with stamping, sending, joining
and reading as separate steps, and the hub itself as a class.

Common hypotheses: order ids are unique, prices are non-negative, and fills start within sizes. The
ledger proves the last two of every order it hands to an engine, and that ids are unique follows from
ids keying the rows.

## Where the code and its documentation differ

- A tariff with zero wheeling and a loss rate above the cap has floor zero, not "no price", although
  every trade of positive value then breaks the cap (`Charges.ZeroWheelingFloor`).
- The funding requirement of a negative amount is the maximum rather than zero, once it is worth at
  least one atomic unit (`OrderPolicy.NegativeAmountDemandsEverything`).
- `truncated` is documented as "resting energy still unscanned"; the merge reports it exactly when
  the resting energy covers the need (`CdaGather.TruncatedMeansCovered`), also when the candidate that
  covered it was the last one there was (`CdaGather.LoneCoverIsTruncated`).
- Landed cost is monotone in the ask, as the lazy merge needs, exactly from non-negative asks on
  (`Pricing.LandedMonotoneExactly`), and covers the ask exactly at multipliers of 1.0 and more
  (`Pricing.LandedCoversAskExactly`).
- A rebuild may fill a buy that a single full pass would leave short
  (`CdaExactness.RebuildDiffersAcrossZones`). Among grids that admit less of whatever they admit, it
  never does exactly on those where every link of finite capacity that holds two minimum trades,
  0.002 kWh, is the only one open into its buyer's zone (`CdaExactness.CapsSeparateIsExact`).
- A user whose own bid reaches their own ask can cost the auction volume it could have cleared
  (`AuctionTheorems.SelfTradeLosesVolume`), and at some sizes always does
  (`AuctionExactness.VolumeIsOptimalExactly`); an ordinary two-sided quote costs none.
- The incremental fill has no guard on the order's size; the bound rests on one worker per segment
  (`LedgerTheorems.PersistChecksNoSize`, `LedgerTheorems.PersistOverfills`).
- Cancelling an immediate order's remainder writes the in-memory fill, so a failed persist leaves its
  row ahead of its settlements, by exactly what was lost (`LostFills.FillsAreAccounted`,
  `LostFills.BalancedExactly`, `SweepBalance.FailedPersistUnbalances`).
- Prices finer than nine decimals can round up and cost more than was required to be funded
  (`FundingExactness.FinePriceOvercharges`): exactly when the requirement at the converted price is the
  larger one (`FundingExactness.FundingExactly`).

## Model

| member | source | states |
|---|---|---|
| `FastPrices.DecimalRoundTrip` | crates/trading-core/src/fast_price.rs:42-73 | a nine-decimal price survives conversion to a decimal and back, over the whole i64 range |
| `FastPrices.FromDecimalMonotone` | crates/trading-core/src/fast_price.rs:129-148 | conversion never reorders two decimals, through half-even rounding and saturation |
| `FastPrices.FromDecimalRounds` | crates/trading-core/src/fast_price.rs:129-148 | a decimal in range becomes the nearest nine-decimal price, and of two equally near ones the even |
| `FastPrices.FromDecimalSaturates` | crates/trading-core/src/fast_price.rs:129-148 | beyond the range it becomes the nearer end |
| `FastPrices.MidpointBetween` | crates/trading-engine/src/uniform_auction.rs:200-202 | the midpoint of a crossing pair is its average rounded toward zero, and lies between its ends, negative prices included |
| `Pricing.LossCostIs` | crates/trading-engine/src/engine.rs:178-186 | loss is the share of the ask above a factor of 1.0, rounded toward zero; nothing below 1.0, and the maximum out of range |
| `Pricing.LandedCostIs` | crates/trading-engine/src/engine.rs:167-190 | a non-negative ask lands at ask plus non-negative wheeling plus loss, capped, then scaled by a multiplier other than 1.0 and rounded toward zero, the maximum out of range |
| `Pricing.LandedMonotone` | crates/trading-engine/src/engine.rs:167-190 | within a zone a dearer non-negative ask never lands cheaper, through truncation, saturation and a positive multiplier |
| `Pricing.LandedMonotoneExactly` | crates/trading-engine/src/engine.rs:167-190 | landed cost is monotone from an ask on, for every fee and positive multiplier, if and only if the ask is not negative |
| `Pricing.LandedDisordersNegatives` | crates/trading-engine/src/engine.rs:170-190 | for every negative ask there are fees and a multiplier under which it lands dearer than an ask of zero |
| `Pricing.LandedCoversAsk` | crates/trading-engine/src/engine.rs:178-190 | at every multiplier of 1.0 or more a match never settles under the ask, the guard the chain applies |
| `Pricing.LandedCoversAskExactly` | crates/trading-engine/src/engine.rs:178-190 | a positive multiplier settles no non-negative ask under itself, whatever the fees, if and only if it is at least 1.0 |
| `Pricing.SubUnitMultiplierUndercutsAsk` | crates/trading-engine/src/engine.rs:187-190 | every multiplier below 1.0 undercuts: an ask of 1.0 without fees lands at the multiplier |
| `CdaSpec.Ranked` | crates/trading-engine/src/engine.rs:130-212 | every ranked candidate is a resting, reachable, viable sell priced for this buy |
| `CdaSpec.CoverFrom` | crates/trading-engine/src/engine.rs:349-366 | the length of the shortest prefix whose resting energy covers the need, or the whole list |
| `CdaGather.RankedSorted` | crates/trading-engine/src/engine.rs:94-117 | candidates are strictly ordered by landed cost, ask, arrival and id |
| `CdaGather.CandidatesAreTheViable` | crates/trading-engine/src/engine.rs:130-212 | the candidates of a buy are exactly the sells that can trade, are someone else's, have a link that admits the smallest trade and the amount wanted, and neither ask nor land above the bid, each at its landed cost |
| `CdaGather.FillOrder` | crates/trading-engine/src/engine.rs:94-117 | the candidates of a buy come by landed cost, then by their sells' own ask, arrival and id |
| `CdaGather.EntryOrderIsFillOrder` | crates/trading-engine/src/engine.rs:242-276 | of two entries of a zone book the earlier is of the lower ask, earlier arrival or lower id and lands no dearer, so a cursor can be read lazily |
| `CdaGather.BidRangeLosesNothing` | crates/trading-engine/src/engine.rs:298-306 | cutting a book at the bid drops no viable sell |
| `CdaGather.LeastHeadIsLeast` | crates/trading-engine/src/engine.rs:342-366 | the least of the cursors' heads is the least of everything not yet emitted |
| `CdaGather.DrainCursor` | crates/trading-engine/src/engine.rs:257-275 | one cursor drained directly yields the ranking, or its shortest covering prefix on early stop |
| `CdaGather.MergeCursors` | crates/trading-engine/src/engine.rs:342-366 | the heap merge of any number of cursors yields the same |
| `CdaGather.GatherCandidates` | crates/trading-engine/src/engine.rs:230-367 | on all three paths: without early stop exactly the sorted viable sells; with it their shortest covering prefix, and `truncated` exactly when the supply of that prefix covers the need |
| `CdaGather.TruncatedMeansCovered` | crates/trading-engine/src/engine.rs:222-229 | on early stop `truncated` is reported if and only if the resting energy of all viable sells covers the need |
| `CdaGather.LoneCoverIsTruncated` | crates/trading-engine/src/engine.rs:349-366 | a single sell that covers the need is reported as truncated although nothing is left unscanned |
| `CdaEngine.SortBuys` | crates/trading-engine/src/engine.rs:400-409 | sorting in place keeps the buys, leaves none that a later one outbids by price, arrival and id, one with an id of its own outbidding every later one, and is the specified ranking |
| `CdaRefinement.RankBuysSorted` | crates/trading-engine/src/engine.rs:400-409 | with unique ids the ranking holds exactly the given buys, each bidding more than the next, or the same and earlier, or both the same with a lower id |
| `CdaEngine.OpenBooks` | crates/trading-engine/src/engine.rs:411-422 | the books hold exactly the resting sells, each in its own zone, in key order |
| `CdaEngine.Unshelve` | crates/trading-engine/src/engine.rs:603-608 | removing a depleted sell leaves the books exact for the sells as they now are |
| `CdaEngine.SimulateFok` | crates/trading-engine/src/engine.rs:489-514 | the simulation on the copied ledger leaves unfilled exactly what the real drain would |
| `CdaEngine.DrainInto` | crates/trading-engine/src/engine.rs:516-609 | the in-place drain computes the specified drain and keeps the books exact |
| `CdaEngine.ServeInPlace` | crates/trading-engine/src/engine.rs:446-620 | the gather, simulate, drain and rebuild loop of one buy computes its specified service |
| `CdaEngine.MatchCycle` | crates/trading-engine/src/engine.rs:374-645 | the whole in-place cycle leaves the orders, matches and statistics of the specified cycle |
| `CdaRefinement.OptimisticIsFullDrain` | crates/trading-engine/src/engine.rs:452-457 | when the grid refuses nothing, the early-stopped pass already equals the full drain |
| `CdaRefinement.StuckStays` | crates/trading-engine/src/engine.rs:541-559 | in one zone with downward-closed capacity a sell refused once stays refused for this buy |
| `CdaRefinement.RebuildIsLive` | crates/trading-engine/src/engine.rs:564-571 | a rebuild lists exactly the earlier candidates that are still resting, priced as before |
| `CdaRefinement.OptimisticInOneZone` | crates/trading-engine/src/engine.rs:459-619 | with all resting sells in one zone and downward-closed capacity, one optimistic pass and at most one rebuild equal one full pass |
| `CdaRefinement.CycleIsNaive` | crates/trading-engine/src/engine.rs:374-620 | the whole cycle equals the naive matcher's, for every book, when the grid refuses nothing or the sells share a zone under downward-closed capacity |
| `CdaRefinement.RankIgnoresCallerOrder` | crates/trading-engine/src/engine.rs:400-409 | the buy ranking depends on which buys there are, not on the caller's order |
| `CdaExactness.OptimisticExactly` | crates/trading-engine/src/engine.rs:459-619 | for any topology the pass with its rebuild equals one full pass over the buy's candidates if and only if the first pass filled the buy, was not cut short, or left nothing in its prefix that could still be filled |
| `CdaExactness.RebuildDiffersAcrossZones` | crates/trading-engine/src/engine.rs:611-618 | on every grid with a link whose finite capacity holds two minimum trades beside another open link, one buy and three sells from an empty flow ledger give a cycle that is not the naive matcher's |
| `CdaExactness.CapsSeparateIsExact` | crates/trading-engine/src/engine.rs:374-620 | on a downward-closed grid every cycle over every book equals the naive matcher's if and only if no link of finite capacity that holds two minimum trades shares its buyer's zone with another open link |
| `CdaSafety.CycleConserves` | crates/trading-engine/src/engine.rs:519-609 | each order advances by exactly its matches and never past its size, both sides by the total volume, every link's total is admitted, no pair repeats, every match is of two given orders at its landed cost |
| `CdaSafety.CdaMatchesFair` | crates/trading-engine/src/engine.rs:574-595 | at every multiplier of 1.0 or more every match settles between its ask and its bid, between different users, with their zones, metadata positions and the buyer's epoch |
| `CdaSafety.MatchesArePriced` | crates/trading-engine/src/engine.rs:574-595 | every match settles at the landed cost on the link from its seller to its buyer, with wheeling and loss per unit of energy at that link; a multiplier that is not positive counts as 1.0 |
| `CdaSafety.MatchesAreTradeable` | crates/trading-engine/src/engine.rs:441-620 | every match is of a buy and a sell of the cycle that had at least 0.001 left and had not expired when it started |
| `CdaSafety.SubUnitMultiplierUnfair` | crates/trading-engine/src/engine.rs:187-190 | for every multiplier below 1.0 there is a market whose match settles under its ask |
| `CdaSafety.LonePairTrades` | crates/trading-engine/src/engine.rs:441-620 | a crossing pair alone on a grid that refuses nothing trades with each other exactly once, for all the smaller one has left; a fill-or-kill buy when it is that one |
| `CdaSafety.FillOrKill` | crates/trading-engine/src/engine.rs:475-514 | for any book and topology a fill-or-kill buy ends untouched or exactly full; one left unfilled and unexpired is reported for cancellation |
| `CdaSafety.LonePairTradesExactly` | crates/trading-engine/src/engine.rs:9-24 | two such orders that cross, neither expired, trade if and only if both have at least 0.001 kWh left |
| `CdaSafety.UnrestedExactly` | crates/trading-engine/src/engine.rs:622-645 | exactly the immediate orders with anything left and not past their expiry are reported for cancellation |
| `CdaSafety.CycleServesInOrder` | crates/trading-engine/src/engine.rs:400-409 | a cycle returns the buys in the order it served them: no buy outbid by a later one |
| `CdaSafety.BetterBuyFirst` | crates/trading-engine/src/engine.rs:400-441 | when the grid refuses nothing, a buy trades with a sell only if every buy that outbids it by price, arrival and id has no use for that sell: it ends full, or the sell is its own user's or too dear; fill-or-kill buys aside |
| `CdaSafety.NoCrossingPairSurvives` | crates/trading-engine/src/engine.rs:441-620 | when the grid refuses nothing, no two tradeable orders of different users are left that could still cross, fill-or-kill buys aside |
| `Auction.PartitionByZone` | crates/trading-engine/src/uniform_auction.rs:99-107 | the in-place grouping computes the specified partition |
| `Auction.SweepInPlace` | crates/trading-engine/src/uniform_auction.rs:144-191 | the two-pointer loop computes the specified sweep: fills, orders and marginal pair |
| `Auction.Settle` | crates/trading-engine/src/uniform_auction.rs:215-277 | the matches and the volume of a zone's fills, all at its one price |
| `Auction.ClearZoneInPlace` | crates/trading-engine/src/uniform_auction.rs:109-212 | clearing one zone in place computes the specified clearing, settled at one price, the average of the bid and the ask of the last pair matched, rounded toward zero |
| `Auction.ClearCycle` | crates/trading-engine/src/uniform_auction.rs:61-97 | the whole clearing cycle leaves the orders, clearings and statistics of the specified one, every zone settled at the midpoint of the last pair it matched |
| `AuctionSpec.Members` | crates/trading-engine/src/uniform_auction.rs:99-107 | a zone's members are exactly its tradeable orders, in slice order |
| `AuctionTheorems.ZoneVolumeIsOptimal` | crates/trading-engine/src/uniform_auction.rs:144-191 | unless a user's own bid reaches their own ask, for every price the volume reaches demand or supply there less 0.001 per order, exactly their minimum on whole units, and never exceeds it at the clearing price |
| `AuctionTheorems.ZoneIsRational` | crates/trading-engine/src/uniform_auction.rs:150-212 | every fill is between different users and settles, at the zone's one price, between its own ask and bid |
| `AuctionTheorems.ZoneKeepsPriority` | crates/trading-engine/src/uniform_auction.rs:118-191 | a buy trades only if every buy of higher price, earlier arrival or lower id, in that order, is used up; likewise a sell of lower price, earlier arrival or lower id, unless a user's own bid reaches their own ask |
| `AuctionTheorems.SelfTradeLosesVolume` | crates/trading-engine/src/uniform_auction.rs:161-165 | of two buys that reach a sell, the later someone else's, the zone clears nothing if and only if the better is the seller's own, although demand and supply both exist |
| `AuctionExactness.VolumeIsOptimalExactly` | crates/trading-engine/src/uniform_auction.rs:144-191 | with users, prices, arrivals and ids fixed, a zone's volume reaches the lesser of demand and supply at every price, for every choice of whole-unit sizes, if and only if no user's own bid reaches their own ask |
| `AuctionTheorems.SettledVolume` | crates/trading-engine/src/uniform_auction.rs:240-269 | the matches of a zone carry exactly the volume of its fills |
| `AuctionZones.PartitionFiles` | crates/trading-engine/src/uniform_auction.rs:72-75 | the group filed under a zone is exactly its tradeable orders |
| `AuctionZones.ZoneClearsAlone` | crates/trading-engine/src/uniform_auction.rs:77-94 | after a cycle each zone's orders and clearing are exactly those of clearing it alone |
| `AuctionSafety.AuctionConserves` | crates/trading-engine/src/uniform_auction.rs:77-94 | each order advances by exactly its matches over all zones, within its size |
| `AuctionSafety.ZonesClearRight` | crates/trading-engine/src/uniform_auction.rs:77-94 | every zone a cycle clears is settled at the midpoint of the last pair it matched, its volume is that of its matches, each charged wheeling and loss inside the zone; zones come in order, the zone-less first, each once |
| `AuctionSafety.AuctionMatchesAreTradeable` | crates/trading-engine/src/uniform_auction.rs:99-107 | every match is of a buy and a sell of the cycle that had at least 0.001 left and had not expired when it started |
| `AuctionSafety.MatchInItsZone` | crates/trading-engine/src/uniform_auction.rs:77-94 | a match listed under a zone is between orders of that zone |
| `AuctionSafety.LonePairClears` | crates/trading-engine/src/uniform_auction.rs:61-97 | two tradeable orders of one zone, size and price by different users, alone in a cycle, clear in one match for all of it at that price |
| `AuctionSafety.AuctionMatchesFair` | crates/trading-engine/src/uniform_auction.rs:242-268 | every match of a cycle is rational, between different users of one zone, with the right metadata |
| `Settlement.SettlementService.UpdateStatus` | crates/trading-persistence/src/repositories/settlement.rs:662-677 | a status write that lands sets the row's status and time and leaves its retries; one that fails changes nothing |
| `Settlement.SettlementService.ResetForRetry` | crates/trading-persistence/src/repositories/settlement.rs:467-497 | a landed release gives every listed row still in processing one more retry and makes it pending, or permanently failed at five; no other row changes |
| `Settlement.SettlementService.ParkDoomed` | crates/trading-logic/src/settlement.rs:362-496 | exactly the rows the query names are dropped and the others returned in order, none when it fails; with writes landing every dropped one is permanently failed with no retry spent, and no other row and no mint changes |
| `Settlement.SettlementService.FinalizeMinted` | crates/trading-logic/src/settlement.rs:242-312 | whatever writes fail, a row is completed or left alone and never released; if one of every two writes in a row lands, all minted ones end completed |
| `Settlement.SettlementService.Settle` | crates/trading-logic/src/settlement.rs:109-338 | the whole pass over a claimed batch, every branch of the failure taxonomy |
| `Settlement.SettlementService.SettleAlone` | crates/trading-logic/src/settlement.rs:204-216 | each entry of a refused batch is settled alone, failures not stopping the others |
| `Settlement.SettlementService.ClaimAndSettle` | crates/trading-logic/src/settlement.rs:45-100 | claim what is pending and settle it, as the worker pass and the RPC entry do |
| `Settlement.SettlementService.ReclaimStale` | crates/trading-logic/src/settlement.rs:36-43 | afterwards no row is stuck past the window; exactly the stuck ones have one more retry and are pending or, at the limit, parked; no mint and no other row changes |
| `SettlementTheorems.ClaimTakes` | crates/trading-persistence/src/repositories/settlement.rs:419-437 | a claim takes each pending row of the request once and marks just those |
| `SettlementTheorems.PassProgress` | crates/trading-logic/src/settlement.rs:109-338 | with writes landing, every claimed row leaves processing: minted and completed, parked with retries untouched, or released with exactly one more; nothing else is touched |
| `SettlementTheorems.PassExactly` | crates/trading-logic/src/settlement.rs:109-338 | with writes landing, call by call: the claimed settlements named by the placement query, and of the rest those named by the expiry query, end parked with no retry spent and unminted; the others are sent in order, and each ends as the chain's answer to exactly that batch says, minted and completed, given back with one more retry, or, refused for good alone, parked |
| `SettlementTheorems.AloneInTurn` | crates/trading-logic/src/settlement.rs:204-216 | settling alone is one pass per entry, in order, each over the state the one before left |
| `SettlementTheorems.ClaimedPassProgress` | crates/trading-logic/src/settlement.rs:45-100 | so a worker pass or RPC call ends every pending row it was asked for, and only those |
| `SettlementTheorems.BadSettlementsIsolated` | crates/trading-logic/src/settlement.rs:143-217 | with an atomic gateway, for any number of bad entries: good ones complete and are minted once, bad ones are parked and never minted, no retry is consumed |
| `MintProtocol.StepKeepsSafe` | crates/trading-logic/src/settlement.rs:45-338 | every step of every pass, reclaim and arrival keeps batches disjoint and the mint account exact |
| `MintProtocol.NeverMintedTwice` | crates/trading-logic/src/settlement.rs:45-338 | in every interleaving no settlement is in two batches in flight and none is minted twice, given passes inside the stale window and completions that land |
| `MintProtocol.SlowPassMintsTwice` | crates/trading-logic/src/settlement.rs:512-514 | without the window an interleaving mints twice |
| `MintProtocol.LostCompletionMintsTwice` | crates/trading-logic/src/settlement.rs:273-297 | without the landed completion an interleaving mints twice |
| `MintProtocol.MintsOnceExactly` | crates/trading-logic/src/settlement.rs:45-338 | every run mints each settlement at most once if and only if both assumptions are made |
| `MintProtocol.PassesAreBounded` | crates/trading-persistence/src/repositories/settlement.rs:419-525 | in any run, whatever writes are lost, at most five passes are ever started over a settlement, and no more than its remaining retries from any point on |
| `MintProtocol.RetriesAreBounded` | crates/trading-persistence/src/repositories/settlement.rs:467-525 | the retry count is the number of landed releases and reclaims, at most five, and after the fifth the settlement is never pending or processing |
| `PassReplay.ClaimPassIsARun` | crates/trading-logic/src/settlement.rs:45-338 | every pass of the service, with an honest gateway, completions that land and a clock inside the window, is a run of the interleaving protocol with the same rows and mints |
| `Charges.CapIsAPriceCondition` | crates/trading-core/src/charges.rs:197-215 | the cap on wheeling plus loss does not depend on the size of the trade |
| `Charges.FloorIsLeast` | crates/trading-core/src/charges.rs:225-238 | with positive wheeling a six-decimal price fits the cap, at every size, if and only if it is at least the floor; no floor means no price fits |
| `Charges.AboveFloorFits` | crates/trading-core/src/charges.rs:225-238 | every nine-decimal price at or above the floor fits |
| `Charges.ZeroWheelingFloor` | crates/trading-core/src/charges.rs:226-229 | with zero wheeling the floor is zero, and a trade fits exactly when the loss rate does |
| `Charges.ReconcileCharges` | crates/trading-core/src/charges.rs:313-347 | a row passes exactly when its fee and loss are the gross times their basis points, its wheeling the energy times the rate and its net the rest; otherwise the sum and each column that is off are reported, in order |
| `OrderPolicy.ResolveOrderPrice` | crates/trading-core/src/order_policy.rs:78-113 | a resolved price is positive and the caller's own if given, or the ceiling of a million for an uncapped market buy; exactly which type, side, time-in-force and price are refused, and why |
| `OrderPolicy.RequirementIsLeastCover` | crates/trading-core/src/order_policy.rs:493-515 | the required funds are the least whole atomic units covering price times amount, or the maximum when no smaller number does |
| `OrderPolicy.CheckSellPriceFloor` | crates/trading-core/src/order_policy.rs:396-420 | a sell is admitted exactly at or above both the settleable floor and the market minimum, no sell when the tariff admits no price, and one that could never settle is told so first |
| `OrderPolicy.FundingAdmitsExactly` | crates/trading-core/src/order_policy.rs:493-563 | every seller is admitted, a market buyer without a cap exactly when the balance is positive, and any other buyer exactly when it covers price times amount |
| `OrderPolicy.NegativeAmountDemandsEverything` | crates/trading-core/src/order_policy.rs:510-514 | a negative amount worth an atomic unit requires the maximum |
| `Money.AdmittedAskSettles` | crates/trading-core/src/order_policy.rs:396-420 | an ask passing the floor check, once converted, fits the cap at every settle price not below it |
| `Money.AdmittedExactly` | crates/trading-core/src/order_policy.rs:396-420 | with a positive wheeling rate a six-decimal ask is admitted if and only if a trade at that price, of whatever size, fits the cap and the market minimum allows it |
| `Money.NoPriceFits` | crates/trading-core/src/charges.rs:225-238 | the representability condition is exact: when it fails no engine price can settle |
| `Money.CdaMatchesSettle` | crates/trading-engine/src/engine.rs:374-645 | no match of a continuous cycle over admitted asks breaks the cap, at every multiplier of 1.0 or more and unchanged rates |
| `Money.AuctionMatchesSettle` | crates/trading-engine/src/uniform_auction.rs:61-97 | nor any match of an auction cycle |
| `Money.LandedAtBilledRates` | crates/trading-logic/src/energy.rs:86-111 | with topology from the billed rates an unsaturated landed cost is ask plus wheeling plus the truncated loss |
| `Money.NetIsAskLessResidual` | crates/trading-core/src/charges.rs:260-271 | the seller's net is exactly the ask less the fee in basis points of the gross less the residual |
| `Money.ResidualBound` | crates/trading-core/src/charges.rs:260-271 | the residual is non-negative and below q(1e-9 + l(w + l*ask)) |
| `Money.CdaPassesChargesThrough` | crates/trading-logic/src/clearing_support.rs:137-142 | so for every unsaturated match of a continuous cycle the charges are passed through to the buyer |
| `Money.RequirementCoversSpend` | crates/trading-core/src/order_policy.rs:493-515 | unless saturated, the required funds cover the bid for the whole amount if and only if requiring them at the converted price would ask for no more; the shortfall is at most half a unit of 1e-9 per kWh |
| `Crossing.ToFastOrders` | crates/trading-logic/src/clearing_support.rs:30-66 | the loop keeps, of each order that has an epoch, its id, user, zone, sizes, arrival, expiry, time-in-force and converted price, aligned with its epoch, address and token |
| `Crossing.SettlingExactly` | crates/trading-logic/src/clearing_support.rs:38-42 | exactly the orders of some epoch are converted |
| `Crossing.FastUnique` | crates/trading-logic/src/clearing_support.rs:47-63 | conversion keeps ids unique |
| `Crossing.CrossIsGood` | crates/trading-logic/src/clearing_support.rs:102-110 | whichever mechanism crosses placed orders, its matches are fair and within what each order has left |
| `Crossing.CrossIsTradeable` | crates/trading-logic/src/clearing_support.rs:30-66 | whichever mechanism crosses them, every match is of two of the orders that could trade at that moment, and at auction of one zone |
| `LedgerTheorems.FairMatchNames` | crates/trading-logic/src/clearing_support.rs:113-116 | a match's metadata positions lead back to its own two orders, their epoch and tokens |
| `LedgerTheorems.CrossedFits` | crates/trading-logic/src/matcher_service.rs:73-111 | what a crossing queues fits what each order has left, although the two sides are read at different moments |
| `LedgerTheorems.PersistedTrade` | crates/trading-persistence/src/repositories/settlement.rs:286-340 | a trade commits if and only if both orders are live, and then advances exactly those two |
| `LedgerTheorems.StepKeepsLedger` | crates/trading-core/src/traits.rs:284-309 | every step of the running system keeps the ledger invariant |
| `LedgerTheorems.LedgerConserves` | crates/trading-logic/src/clearing_support.rs:83-91 | at every moment of every run a good-till-cancelled order's fill is exactly its settled energy, and no order is filled or settled past its size |
| `LedgerTheorems.TradesAreTheirOrders` | crates/trading-logic/src/clearing_support.rs:113-176 | every booked trade is of two orders of one segment (and at auction one epoch and one zone), at a price between theirs, with their own epoch and tokens and charges that account for the gross |
| `LedgerOrigins.TradesAtTariff` | crates/trading-core/src/charges.rs:260-271 | over any run every booked trade was committed by a booking step and is charged at that step's rates: fee and loss in basis points, wheeling per unit of energy, the rest to the seller |
| `LedgerOrigins.TradesWereTradeable` | crates/trading-engine/src/engine.rs:444-447 | over any run every booked trade is a match the engine made, its energy at its settle price, at a crossing of its segment at whose start neither order had expired |
| `LedgerOrigins.ListingIsTheOpenRows` | crates/trading-persistence/src/repositories/order.rs:461-486 | a worker reads exactly the open rows of its side and segment, and at auction of its epoch |
| `LedgerOrigins.SweepIsTheLeftOver` | crates/trading-logic/src/matcher_service.rs:137-183 | a matching cycle cancels exactly its immediate orders with anything left and not past their expiry |
| `LedgerOrigins.StepMovesStatus` | crates/trading-persistence/src/repositories/order.rs:401-449 | an open order expires once its time has come, is cancelled by its owner, or by the sweep when immediate, and is filled, or part filled, by a booking; a refusal cancels any order; nothing else changes a status |
| `LedgerOrigins.FilledExactlyWhenFull` | crates/trading-persistence/src/repositories/settlement.rs:21-34 | over any run a filled order is exactly full and an open one of positive size has something left |
| `LedgerTheorems.NeverInBothMechanisms` | crates/trading-logic/src/matcher_service.rs:69-86 | no order ever has fills queued by both mechanisms |
| `LedgerTheorems.TerminalIsFinal` | crates/trading-persistence/src/repositories/order.rs:368-384 | once cancelled, expired or filled, an order is never revived or filled again |
| `LedgerTheorems.FundingCoversRun` | crates/trading-core/src/order_policy.rs:493-515 | over any run a limit or capped market buy costs at most what placement required, when converting its price would not raise the requirement (otherwise at most half a unit per kWh more), unless that saturated |
| `LedgerTheorems.AdmittedBuyerCanPay` | crates/trading-core/src/order_policy.rs:530-563 | a balance that passed the funding check covers everything the order is ever charged, over any run, when converting its price would not raise the requirement |
| `LedgerTheorems.FundingCoversRunAtNineDecimals` | crates/trading-core/src/order_policy.rs:493-515 | at a price of at most nine decimals the requirement covers every run outright, unless it saturated |
| `FundingExactness.ChargedToTheBid` | crates/trading-logic/src/matcher_service.rs:62-135 | for every buy of either segment that a cycle may fill there is a run from the empty market that charges it its bid for its whole amount |
| `FundingExactness.FundingExactly` | crates/trading-core/src/order_policy.rs:493-515 | for each of those buys, unless saturated, the required funds cover every run if and only if converting the price would not raise them |
| `FundingExactness.FinePriceOvercharges` | crates/trading-core/src/order_policy.rs:510-514 | at 1.6e-9 per kWh for ten billion kWh, a run that charges twenty million atomic units where sixteen million were required |
| `LedgerTheorems.PersistChecksNoSize` | crates/trading-persistence/src/repositories/settlement.rs:21-34 | two trades of one live buy from different cycles both commit, and fill it past its size if and only if together they do not fit it |
| `LedgerTheorems.PersistOverfills` | crates/trading-persistence/src/repositories/settlement.rs:21-34 | a sound ledger and two trades, each fitting the buy, after which it is filled to four thirds of its size |
| `SweepBalance.SweptOrderBalances` | crates/trading-logic/src/matcher_service.rs:137-183 | after a matching cycle whose rows nobody else writes between its reads and its cancellations, whichever of its own writes fail, a remainder to cancel has a fill equal to its settlements if and only if every match of that order was committed or the cancellation never reached the row |
| `SweepBalance.FailedPersistUnbalances` | crates/trading-logic/src/matcher_service.rs:118-134 | for every crossing pair of an immediate-or-cancel buy and a smaller good-till-cancelled sell, on a grid that refuses nothing, there is a run from the empty market that ends with the buy's row ahead of its settlements |
| `LostFills.FillsAreAccounted` | crates/trading-logic/src/matcher_service.rs:118-183 | at every moment of every run, whatever interleaves, the fill of an order of any kind is its settled energy plus what bookings had lost of it when a cancellation overwrote it |
| `LostFills.BalancedExactly` | crates/trading-logic/src/matcher_service.rs:137-183 | a fill is never behind its settlements, and equals them if and only if no cancellation overwrote it after a booking of the order had been lost in the same cycle |
| `TradingServices.CycleKeepsLedger` | crates/trading-logic/src/matcher_service.rs:62-135 | a cycle's writes in order keep the ledger whichever of them fail |
| `CycleRuns.CycleIsARun` | crates/trading-logic/src/matcher_service.rs:62-135 | a whole cycle of either worker, any of its writes failing, continues any run of the system that ends between cycles |
| `TradingServices.ListPicksSweep` | crates/trading-logic/src/matcher_service.rs:147-160 | picking by the engine's id list picks exactly the immediate orders that must not rest |
| `TradingServices.TradingStore.PersistMatchedTrade` | crates/trading-persistence/src/repositories/settlement.rs:286-340 | the trade and both fills commit together or nothing does |
| `TradingServices.TradingStore.PersistMatches` | crates/trading-logic/src/clearing_support.rs:92-249 | each match is attempted in order, failed and refused ones skipped |
| `TradingServices.TradingStore.CancelIocRemainders` | crates/trading-logic/src/matcher_service.rs:147-183 | the listed remainders are cancelled in order until a write fails |
| `TradingServices.TradingStore.RunMatchingCycle` | crates/trading-logic/src/matcher_service.rs:62-135 | one cycle over the live realtime orders ends with exactly the cycle's writes, and the ledger sound |
| `TradingServices.TradingStore.RunEpochClearing` | crates/trading-logic/src/clearing.rs:76-155 | one clearing over the epoch's live interval orders ends with exactly its writes and the ledger sound; its summary counts the matches and their energy, and has one price for each zone they are in, in zone order |
| `TradingServices.TradingStore.ClearDueEpochs` | crates/trading-logic/src/clearing.rs:157-197 | the rows go through one state per due epoch, each the clearing of that epoch over the state before, under any failure pattern; one summary each, every epoch closed, the ledger sound |
| `TradingServices.SummaryIsRight` | crates/trading-logic/src/clearing.rs:113-155 | the summary of a clearing has the number of its matches, their total energy, and exactly the zones and settle prices they have |
| `TradingServices.BookedWithinBatch` | crates/trading-logic/src/clearing_support.rs:92-249 | booking adds at most as many trades, and as much energy, as there were matches, and exactly as much of both when none is lost |
| `TradingServices.EpochsCloseOnce` | crates/trading-persistence/src/repositories/epoch.rs:75-100 | closing is idempotent: an active epoch keeps its first summary's volume and match count, with the zone's price exactly when one zone cleared; others are untouched |
| `ZoneHubs.StepKeepsHub` | crates/trading-api/src/websocket.rs:109-213 | every stamp, send, join, read and lag keeps numbering and receivers exact |
| `ZoneHubs.GapFreeJoining` | crates/trading-api/src/websocket.rs:147-156 | a subscriber told `s` holds consecutive frames and every frame above `s` it has reached; what it lost was announced |
| `ZoneHubs.FirehoseKeepsZoneOrder` | crates/trading-api/src/websocket.rs:158-164 | on the market-wide stream each zone's frames are still 1, 2, 3, ... without gaps |
| `ZoneHubs.MarketWideStream` | crates/trading-api/src/websocket.rs:158-164 | a market-wide subscriber holds consecutively numbered frames of every zone from where it joined or last lagged, and what it lost was announced |
| `ZoneHubs.ZoneHub.SubscribeAll` | crates/trading-api/src/websocket.rs:158-164 | joining the market-wide stream gives a sound receiver at its end |
| `ZoneHubs.StreamIsItsEvents` | crates/trading-api/src/websocket.rs:166-260 | in any run each zone's stream, with the frame on its way, is exactly the events published for that zone, in order, each under its own public name and with its own payload |
| `ZoneHubs.ReadsOrLoses` | crates/trading-api/src/websocket.rs:46-48 | a receiver within 512 frames of the end reads the next frame; one further behind loses exactly the frames past the ring, announced, and goes on at the oldest kept |
| `ZoneHubs.ZonelessConsumesNothing` | crates/trading-api/src/websocket.rs:166-171 | an event stamps nothing if and only if it has no zone or is outside the contract |
| `ZoneHubs.ReadingFirstLosesFrame` | crates/trading-api/src/websocket.rs:147-156 | reading the number before opening the receiver can lose a frame unannounced |
| `ZoneHubs.ZoneHub.Subscribe` | crates/trading-api/src/websocket.rs:147-156 | joining returns a receiver at the end of the zone's stream and the number it is at |
| `ZoneHubs.ZoneHub.Publish` | crates/trading-api/src/websocket.rs:166-213 | publishing is stamp, send to the zone and send to everyone |

## Left out

- Decimals of 28 digits: amounts and money are exact integers, so `Decimal`'s own rounding and its overflow panics are not modelled.
- Collections: ordered maps are sorted sequences, the binary heap is a bag of heads whose least is popped, and the library sorts are insertion sorts, which agree with them because ids are unique.
- The one-zone path and the one-cursor path of the candidate merge share one loop, `CdaGather.DrainCursor`.
- `Money.CdaPassesChargesThrough`: the pass-through bound is for multiplier 1.0, the only one the matcher passes; any other scales the charges too.
- The statement that a gateway error mints nothing is an assumption of `MintProtocol` and `SettlementTheorems`, as it is of the code.
- Settlement audit entries, events, transaction hashes, error texts and certificate issuance.
- `LedgerTheorems.LedgerConserves`: equality of fills and settlements is not claimed of a cancelled immediate order, whose remainder sweep writes the fill from memory; `LostFills.BalancedExactly` says exactly when it holds.
- One matcher and one clearing worker run at a time; a second instance of either is outside the ledger's system.
- A read failing inside a cycle, which ends it before it writes anything, and the placement address written to an order after it is accepted.
- Rates changing between admission and settlement; `RefreshingChargeRates` only replaces a value.
- Sequence numbers of the hub do not wrap at 64 bits, and a frame that fails to encode after it was stamped, which leaves a gap, is not modelled.
- One publisher per zone, which the event stream's partitioning provides, is assumed by the hub.
- REST and gRPC handlers, authentication, configuration, metrics, the outbox, and VPP dispatch and forecasting.
- Payload encoding, CSV export, order-book aggregation, price alerts, recurring orders, expiry resolution and meter eligibility are not modelled.
