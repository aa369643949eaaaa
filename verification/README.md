# Phala World: sale, preorders and incubation

A Dafny model of the two Phala World pallets, `pallet_pw_nft_sale` and `pallet_pw_incubation`, as one state machine over
shared storage, and proofs of what holds over every run of it.

- `Primitives.dfy`: identifiers, the enums and records of `traits.rs`, the pallet constants, the errors, SCALE encoding.
- `Libraries.dfy`: the currency (free and reserved balances) and the NFT ledger of RMRK and pallet-uniques.
- `World.dfy`: the storage as a value, the effect of every call on it (the new storage, or the error), steps and runs.
- `PhalaWorld.dfy`: the pallets themselves. Class `PhalaWorld` has the storage items as fields and the dispatchables as
  methods that update them step by step; every method is proved to do what `World` says. Class `Runtime` dispatches
  calls: a call that carries `#[transactional]` runs on a layer of its own that is kept only if it succeeds. Its
  `Replay` performs any sequence of them and ends where `World.Run` ends, so what is proved of runs holds of the class.
- `Invariants.dfy`, `Frames.dfy`, `Preservation.dfy`: what every reachable storage satisfies, and why.
- `Awakening.dfy`: what is minted, burned and alive in the three collections.
- `Theorems.dfy`: the invariants read off property by property, for the storage after any run from genesis.
- `Refunds.dfy`, `Settlements.dfy`, `BatchConditions.dfy`: the batch calls, what they do and exactly when they succeed.
- `Sales.dfy`, `Incubation.dfy`, `Settings.dfy`: every call described on the storage items themselves, without the
  functions that define it: exactly when it succeeds, and everything it writes. `Refusals.dfy`: with which error it fails.
- `Conditions.dfy`: the conditions of single calls that these descriptions and other proofs start from.
- `Flags.dfy`: which calls and runs keep `OwnerHasPreorder` an index of the live preorders.
- `Money.dfy`, `Supply.dfy`, `Holdings.dfy`, `Food.dfy`, `Hatching.dfy`, `Clock.dfy`: properties of whole runs.
- `Sums.dfy`: sums over maps, repetitions in sequences.

A run is a sequence of calls by anybody, ends of blocks, steps of time, and transfers of free balance by other pallets;
a call that fails leaves storage as it was. What is assumed of the surroundings:

- `SecondsPerEra` and `IterLimit` are at least 1 (`Config.Valid`). The other constants are arbitrary.
- Time does not run backwards, and the overlord names three different collections (`Admissible`). The code checks
  neither. Nothing is assumed of naming calls that fail.
- NFTs exist only in the three collections and change only through the two pallets.
- Genesis is the default one: empty storage, era 0, any balances.
- RMRK and pallet-uniques may refuse any mint, freeze, burn or attribute for reasons of their own. A `Host`, chosen
  freely for every call, says which.
- sr25519 verification is an arbitrary predicate on overlord, claimant, purpose and signature.

Where the code and its comments differ the model follows the code. The inventory is the one of the statements at
`nft_sale.rs:1217-1290`, not the one of the comment above them (1201-1206). A shell can hatch when the time is strictly
after its hatch time (`incubation.rs:587-590`), although the comment at line 346 says less than or equal.

One property is false of the code: on the last day of sale neither preorders nor batches touch `OwnerHasPreorder`, so
every one of them makes the flags stop being an index of the live preorders. `Flags.StepKeepsFlagsIff` gives the exact
condition for every call, `Flags.FlagsStayExactIff` for whole runs, and `Flags.FlagsBreak` a run in which it happens.
An owner who keeps the flag that way cannot preorder again but on a last day of sale (`Flags.StrandedForGood`).

## Model

Each method of class `PhalaWorld` is proved equal, in outcome and in the storage it leaves on success, to the function of
`World` of the same call. What those functions do is said by `Sales`, `Incubation`, `Settings` and `Refusals`, call by
call; the other lemmas are about batches and runs. The third column says what the call or the lemma establishes.

| member | source | states |
|---|---|---|
| `Preservation.RunKeeps` | pallets/phala-world/src/nft_sale.rs:395-1083 | every admissible run of calls, block ends and outside transfers keeps `WorldInv`: escrow, collections, frozen flags, Spirits, traits, inventory and lineage |
| `Preservation.StepKeeps` | pallets/phala-world/src/nft_sale.rs:395-1083 | one call of either pallet keeps `WorldInv`, whether it succeeds or fails |
| `Preservation.GenesisInv` | pallets/phala-world/src/nft_sale.rs:221-235 | the default genesis satisfies `WorldInv` |
| `Frames.StepUntouched` | pallets/phala-world/src/nft_sale.rs:395-1083 | which storage items each kind of call leaves alone, over both pallets |
| `Theorems.EscrowIsSolvent` | pallets/phala-world/src/nft_sale.rs:595-616 | after any run each account's reserve is the Prime price times the number of its live preorders, and live ids are below `PreorderIndex` |
| `Theorems.PreorderIdsAreNotReused` | pallets/phala-world/src/nft_sale.rs:595-616 | over any continuation of a run a preorder that is gone stays gone and a live one is unchanged, so an insert never overwrites |
| `Refunds.RunEvolves` | pallets/phala-world/src/nft_sale.rs:595-616 | `PreorderIndex` never falls and preorders are only added above it or removed |
| `Preservation.ReleasePaysInFull` | pallets/phala-world/src/nft_sale.rs:656-664 | `unreserve` of a live preorder's price always releases the whole price |
| `Refunds.RefundAllSucceedsIff` | pallets/phala-world/src/nft_sale.rs:717-744 | a list of refunds succeeds if and only if its ids are pairwise different and live; the only error is NoAvailablePreorderId |
| `Refunds.RefundSucceedsIff` | pallets/phala-world/src/nft_sale.rs:705-748 | a refund call succeeds if and only if the overlord makes it and the first `IterLimit` ids are pairwise different and live |
| `Refunds.RefundAllEffect` | pallets/phala-world/src/nft_sale.rs:717-744 | a successful list refunds exactly the set of its ids: preorders, flags, reserves and totals, described without an order |
| `Refunds.RefundedIsUnique` | pallets/phala-world/src/nft_sale.rs:717-744 | that description determines the new storage |
| `Refunds.RefundOrderIsIrrelevant` | pallets/phala-world/src/nft_sale.rs:717-744 | two lists with the same ids in different order have the same outcome and lead to the same storage |
| `Refunds.DriveRefundsIsOnePass` | pallets/phala-world/src/nft_sale.rs:713-747 | calling refund on a list and on the remainders after `IterLimit` ids equals one unbounded pass, errors included |
| `Refunds.EscrowIsRecoverable` | pallets/phala-world/src/nft_sale.rs:705-748 | from every reachable storage with an overlord, refunding all live ids in chunks succeeds and leaves no preorders, no reserves, and every account's free plus reserved total unchanged |
| `Refunds.RecoveryExists` | pallets/phala-world/src/nft_sale.rs:705-748 | so every such storage has a list of refunds, driven in chunks, that pays all escrow back |
| `Refunds.EveryRunIsRecoverable` | pallets/phala-world/src/nft_sale.rs:573-748 | after every run from genesis there is such a list for the overlord; while there is no overlord there are no preorders, and nothing to pay back |
| `Settlements.SettleAllEffect` | pallets/phala-world/src/nft_sale.rs:650-694 | on success the list was duplicate-free and live; the k-th id is NFT `NextNftId + k` of that preorder's owner, race and career; each race's Prime pot falls by its multiplicity, careers rise by theirs, no other NFT changes; buyers paid the Prime price per preorder and the overlord took it, what stays reserved is the escrow of what is left, and the owners' flags are cleared unless it is the last day of sale |
| `BatchConditions.SettleAllSucceedsIff` | pallets/phala-world/src/nft_sale.rs:650-694 | a list of settlements succeeds if and only if, in the storage before it, the ids are different and live, no race is oversubscribed, metadata is set, RMRK takes the mints and every buyer can pay for all its preorders |
| `BatchConditions.MintChosenSucceedsIff` | pallets/phala-world/src/nft_sale.rs:638-695 | a mint call succeeds if and only if the overlord makes it and the first `IterLimit` ids meet that condition |
| `BatchConditions.MintSucceedsIff` | pallets/phala-world/src/nft_sale.rs:1379-1451 | exactly when a single mint of an Origin of Shell succeeds, the payment as inequalities on the balances before it |
| `Settlements.DriveMintsIsOnePass` | pallets/phala-world/src/nft_sale.rs:650-694 | if every call on a list and on the remainders after `IterLimit` ids succeeds, whatever RMRK refuses in each, the result is the storage of one unbounded pass |
| `Settlements.SteadyDriveMintsIsOnePass` | pallets/phala-world/src/nft_sale.rs:650-694 | with the same RMRK in every call, the calls and the single pass have the same outcome, errors included |
| `Settlements.SettleOneMoney` | pallets/phala-world/src/nft_sale.rs:659-676 | settling moves the price from the buyer's total to the overlord's, and nothing when they are the same account |
| `BatchConditions.MintOrderIsIrrelevant` | pallets/phala-world/src/nft_sale.rs:650-694 | two lists with the same ids in different order both succeed or both fail, and lead to the same preorders, flags, inventory, career counters, free and reserved balances and NFT ids |
| `Sales.BuyRareSucceedsIff` | pallets/phala-world/src/nft_sale.rs:467-499 | a rare purchase succeeds if and only if its gate is open, there is an overlord, the rarity is not Prime, the sender owns a Spirit and (off the last day) no Origin of Shell, the race has metadata and something left for sale in that rarity, the price can be paid and RMRK takes the mint |
| `Sales.BuyRareEffect` | pallets/phala-world/src/nft_sale.rs:479-496 | the sender gets the next Origin of Shell with the rarity, race and career it asked for, pays the overlord the Magic or the Legendary price, and that entry's for-sale pot falls by one; the race and career counters rise; nothing else changes |
| `Sales.BuyPrimeSucceedsIff` | pallets/phala-world/src/nft_sale.rs:512-553 | the same for a Prime purchase, which needs its own gate and a ticket or the last day of sale |
| `Sales.BuyPrimeEffect` | pallets/phala-world/src/nft_sale.rs:538-550 | the same with rarity Prime and the Prime price |
| `Sales.GiftSucceedsIff` | pallets/phala-world/src/nft_sale.rs:762-797 | a gift succeeds if and only if the overlord makes it, not for sale, the owner has a Spirit, and the giveaway or the reserved pot that it names has something left |
| `Sales.GiftEffect` | pallets/phala-world/src/nft_sale.rs:779-789 | the owner gets the next Origin of Shell as ordered, out of the giveaway pot for a Giveaway and out of the reserved pot for a Reserved, and no balance changes |
| `Sales.LabelsAre` | pallets/phala-world/src/nft_sale.rs:1470-1534 | the bytes stored under the four attribute names |
| `Sales.SpiritCallSucceedsIff` | pallets/phala-world/src/nft_sale.rs:405-453 | exactly when a claim and a redemption of a Spirit succeed |
| `Sales.SpiritEffect` | pallets/phala-world/src/nft_sale.rs:1328-1360 | the sender gets the next Spirit, frozen, and nothing else changes |
| `Sales.PreorderCallIff` | pallets/phala-world/src/nft_sale.rs:566-614 | exactly when a preorder succeeds, on and off the last day of sale |
| `Sales.PreorderEffect` | pallets/phala-world/src/nft_sale.rs:594-620 | on every day: owner, race, career and metadata are stored as asked under the next id, the Prime price moves from free to reserved, the flag is set off the last day only, and nothing else changes |
| `Sales.RefundCall` | pallets/phala-world/src/nft_sale.rs:705-748 | a refund call, exactly: it looks at the whole list or its first `IterLimit` ids, refunds that set or fails with the one or the other error |
| `Sales.MintChosenCall` | pallets/phala-world/src/nft_sale.rs:638-695 | a mint call, exactly: it looks at the whole list or its first `IterLimit` ids, and settles them all or none |
| `Conditions.UpdateSucceedsIff` | pallets/phala-world/src/incubation.rs:451-479 | exactly when an update of hatch times succeeds |
| `Invariants.MintOriginEffect` | pallets/phala-world/src/nft_sale.rs:1379-1451 | what a successful mint presupposes and does: payment, one new frozen NFT with the ordered traits, one less in the pot, one more in both counters, nothing else |
| `Invariants.MintSpiritEffect` | pallets/phala-world/src/nft_sale.rs:1328-1369 | a successful Spirit mint gives the next frozen NFT to an account that had none |
| `Invariants.SetAttributesEffect` | pallets/phala-world/src/nft_sale.rs:1470-1534 | the four attributes written decode to the traits given, and no other NFT's attributes change |
| `Refusals.SaleRefused` | pallets/phala-world/src/nft_sale.rs:467-797 | a purchase or a gift fails with the error of the first requirement, in the source's order, that it does not meet, and with no other |
| `Refusals.SettlementRefused` | pallets/phala-world/src/nft_sale.rs:652-676 | so does the settlement of one preorder |
| `Refusals.BatchRefused` | pallets/phala-world/src/nft_sale.rs:650-694 | a batch of mints fails with the error of the first preorder on the list that cannot be settled after the ones before it |
| `Refusals.SpiritRefused` | pallets/phala-world/src/nft_sale.rs:405-453 | with which error a claim or a redemption fails |
| `Refusals.PreorderRefused` | pallets/phala-world/src/nft_sale.rs:566-614 | with which error a preorder fails |
| `Refusals.IncubationRefused` | pallets/phala-world/src/incubation.rs:178-293 | with which error a start and a feeding fail |
| `Refusals.HatchRefused` | pallets/phala-world/src/incubation.rs:325-431 | with which error a hatch fails in a reachable storage |
| `Refusals.UpdateRefused` | pallets/phala-world/src/incubation.rs:451-470 | an update of hatch times fails with the error of its first entry that is no incubating Origin of Shell |
| `Settings.OverlordCall` | pallets/phala-world/src/nft_sale.rs:805-820 | governance, and nobody else, names the overlord |
| `Settings.ClockCall` | pallets/phala-world/src/nft_sale.rs:828-844 | the overlord starts the clock once, at a multiple of `SecondsPerEra` less than one era ago |
| `Settings.StatusCall` | pallets/phala-world/src/nft_sale.rs:855-878 | the overlord, and nobody else, sets the gate that it names, and no other |
| `Settings.CollectionCall` | pallets/phala-world/src/nft_sale.rs:961-1004 | each of the three collections is named once, by the overlord |
| `Settings.SpiritsMetadataCall` | pallets/phala-world/src/nft_sale.rs:1039-1052 | the overlord sets the Spirits' metadata |
| `Settings.MetadataCall` | pallets/phala-world/src/nft_sale.rs:1062-1080 | the overlord's list sets the metadata of each race it names to the last entry of that race, and of no other |
| `Settings.LastEntryCounts` | pallets/phala-world/src/nft_sale.rs:1070-1073 | of several entries for one race the last one is stored |
| `Settings.InventoryCall` | pallets/phala-world/src/nft_sale.rs:1207-1296 | the overlord sets the inventory once: 1, 10 and 1250 for sale and 1, 10 and 0 reserved of Legendary, Magic and Prime, for every race |
| `Settings.TopUpCall` | pallets/phala-world/src/nft_sale.rs:910-953 | the overlord tops up the for-sale and giveaway pots of Prime only, of every race, stopping at 32 bits |
| `Theorems.LineageIsConserved` | pallets/phala-world/src/nft_sale.rs:1552-1576 | after any run each race and career counter is the live Origin of Shells plus the awakened Shells of that kind, and both tables sum to the Origin of Shell collection's `NextNftId` |
| `Preservation.MintOriginCounts` | pallets/phala-world/src/nft_sale.rs:1438-1441 | a successful mint adds one to the counter of its rarity and race and to that of its career, and leaves all others alone |
| `Preservation.MintKeepsLineage` | pallets/phala-world/src/nft_sale.rs:1419-1441 | a new NFT keeps the lineage invariant, given that exactly the counters it fits rise by one |
| `Preservation.OriginsAfterHatch` | pallets/phala-world/src/incubation.rs:377-383 | the hatched NFT leaves the live Origin of Shells of exactly the kinds it belongs to |
| `Preservation.ShellsAfterHatch` | pallets/phala-world/src/incubation.rs:386-431 | the new Shell joins the live Shells of exactly those kinds |
| `Preservation.HatchKeepsLineage` | pallets/phala-world/src/incubation.rs:377-431 | so a hatch keeps the lineage invariant, with no counter changed |
| `Awakening.BurnsAreAwakenings` | pallets/phala-world/src/incubation.rs:377-431 | after any run the live Origin of Shells plus the Shells ever minted (`NextNftId` of that collection) are the Origin of Shells ever minted, and every Spirit and Shell ever minted is alive: the only burns are hatches |
| `Theorems.SpiritDiscipline` | pallets/phala-world/src/nft_sale.rs:1328-1395 | after any run nobody has two Spirits; the owner of a live preorder or a live Origin of Shell has exactly one |
| `Holdings.SettlementHasSpirit` | pallets/phala-world/src/nft_sale.rs:664-676 | settling a live preorder never fails for want of a Spirit |
| `Theorems.LiveNftsAreFrozenAndLabelled` | pallets/phala-world/src/nft_sale.rs:1443-1448 | after any run live Spirits and Origin of Shells are frozen, and live Origin of Shells and Shells carry four attributes that decode |
| `Money.RunConserves` | pallets/phala-world/src/nft_sale.rs:480-731 | no run changes the sum of free and reserved balances over all accounts |
| `Money.StepBill` | pallets/phala-world/src/nft_sale.rs:480-789 | a successful call takes its bill from a buyer's total, adds its income to the overlord's, and leaves every other total alone |
| `Money.RunBalance` | pallets/phala-world/src/nft_sale.rs:480-789 | over any run an account's total changes by what it spent on mints and, for as long as it is overlord, by what mints earned it |
| `Money.BuyersPayThePrice` | pallets/phala-world/src/nft_sale.rs:480-789 | without outside transfers an account that was never overlord has lost exactly the prices of its for-sale mints; gifts, preorders and refunds cost nothing |
| `Currency.ReserveConserves` | pallets/phala-world/src/nft_sale.rs:614 | reserving keeps the total issuance |
| `Currency.UnreserveConserves` | pallets/phala-world/src/nft_sale.rs:661-664 | unreserving keeps the total issuance and every account's total |
| `Currency.MoveConserves` | pallets/phala-world/src/nft_sale.rs:1412-1417 | a transfer between two accounts keeps the total issuance |
| `Supply.FixedSupply` | pallets/phala-world/src/nft_sale.rs:1305-1321 | after any run, for every rarity and race, minted plus for sale plus giveaway plus reserved is the initial allotment plus, of each top-up, what its pots had room for in 32 bits |
| `Supply.ToppedUpAllotment` | pallets/phala-world/src/nft_sale.rs:1305-1321 | a top-up raises the allotment by what was asked as far as the pots have room, and touches nothing else |
| `Supply.TopUpIsEffectiveIff` | pallets/phala-world/src/nft_sale.rs:1313-1318 | a top-up is fully effective if and only if both pots have room for what is asked |
| `Supply.RareIsNeverToppedUp` | pallets/phala-world/src/nft_sale.rs:919-923 | no run tops up anything but Prime |
| `Supply.RareSupply` | pallets/phala-world/src/nft_sale.rs:1217-1268 | after any run Legendary and Magic allotments are 2 and 20 per race, so at most 8 Legendary and 80 Magic are ever minted |
| `Supply.CountersFit` | pallets/phala-world/src/nft_sale.rs:1552-1576 | the unchecked increments of the race and career counters stay within 32 bits |
| `Holdings.EarlyHoldings` | pallets/phala-world/src/nft_sale.rs:573-592 | while `LastDayOfSale` has stayed false: the flag is set if and only if the account has exactly one live preorder, nobody has two, and live Origin of Shells plus live preorders are at most 2 plus the gifts received |
| `Holdings.EarlyFlags` | pallets/phala-world/src/nft_sale.rs:616-620 | while `LastDayOfSale` has stayed false the flags index the live preorders exactly |
| `Flags.StepKeepsFlagsIff` | pallets/phala-world/src/nft_sale.rs:573-733 | any call keeps exact flags exact if and only if it is not late: on the last day of sale a preorder that can be placed, or a batch of the overlord that names some preorder and can be carried out, judged on the storage before the call |
| `Flags.IsLateIff` | pallets/phala-world/src/nft_sale.rs:573-733 | a call is late if and only if it is a preorder or a non-empty batch that succeeds on the last day of sale |
| `Flags.FlagsStayExactIff` | pallets/phala-world/src/nft_sale.rs:573-733 | over any run from genesis the flags are exact at every point if and only if no call of the run is late |
| `Flags.PreorderKeepsFlagsIff` | pallets/phala-world/src/nft_sale.rs:616-620 | a successful preorder keeps the flags exact if and only if it is not the last day of sale |
| `Flags.RefundKeepsFlagsIff` | pallets/phala-world/src/nft_sale.rs:723-733 | so does a single refund |
| `Flags.SettleKeepsFlagsIff` | pallets/phala-world/src/nft_sale.rs:677-680 | so does a single settlement |
| `Flags.RefundAllKeepsFlagsIff` | pallets/phala-world/src/nft_sale.rs:717-744 | a successful list of refunds keeps the flags exact if and only if it is not the last day of sale or the list is empty |
| `Flags.SettleAllKeepsFlagsIff` | pallets/phala-world/src/nft_sale.rs:650-694 | so does a successful list of settlements |
| `Flags.FlagsBreak` | pallets/phala-world/src/nft_sale.rs:573-620 | a run from genesis, under any configuration: a preorder on the last day of sale and another one after it leave an account with two live preorders although it is not the last day of sale |
| `Flags.LateRefundsStrand` | pallets/phala-world/src/nft_sale.rs:723-733 | a list of refunds on the last day of sale, off exact flags, leaves every owner on it with the flag and without a live preorder |
| `Flags.LateSettlementsStrand` | pallets/phala-world/src/nft_sale.rs:677-680 | so does a list of settlements |
| `Flags.StepLeavesStrandedIff` | pallets/phala-world/src/nft_sale.rs:573-733 | any call leaves an account that has the flag but no live preorder in that position if and only if it is not a successful preorder of that account on a last day of sale |
| `Flags.StrandedForGood` | pallets/phala-world/src/nft_sale.rs:573-578 | an account with the flag but without a live preorder stays so over every run, last days of sale and status changes included, in which it places no preorder on a last day; whenever such a run ends off the last day a preorder of that account is PreorderOriginOfShellNotAvailable |
| `Flags.EarlyRunsPlaceNothingLate` | pallets/phala-world/src/nft_sale.rs:573-578 | that covers every run in which no last day of sale is declared |
| `Clock.RunKeepsClock` | pallets/phala-world/src/nft_sale.rs:172-190 | after any run zero day is aligned to `SecondsPerEra` and not in the future, and `Era` is at most the whole eras since |
| `Clock.EraIsNeverAhead` | pallets/phala-world/src/nft_sale.rs:172-190 | after any run `Era` is 0 before the clock is started, and at most the seconds since zero day divided by `SecondsPerEra` |
| `Incubation.FinalizeStep` | pallets/phala-world/src/nft_sale.rs:172-190 | the end of a block raises `Era` by one if the whole eras since zero day are more, and does nothing else |
| `Clock.ZeroDayIsFixed` | pallets/phala-world/src/nft_sale.rs:833-838 | once set, zero day never changes |
| `Clock.EraFollowsTheClock` | pallets/phala-world/src/nft_sale.rs:172-190 | if consecutive block ends (counted from the start of the clock) are at most `SecondsPerEra` apart, `Era` equals the whole eras since zero day after every block end |
| `Clock.LagFallsByBlocks` | pallets/phala-world/src/nft_sale.rs:178-182 | while no new era falls due, the lag of `Era` falls by one per block end until it is zero |
| `Clock.StepClock` | pallets/phala-world/src/nft_sale.rs:172-190 | what one step does to zero day, to the time and to `Era` |
| `Food.RunKeepsFood` | pallets/phala-world/src/incubation.rs:259-303 | after any run the totals of the current era are the sums over the lists of that era (in 32 bits), later eras have none, each list has at most `FoodPerEra` entries, at most `MaxFoodFeedSelf` of the same shell (one, where that constant is 0), and is not of a later era |
| `Food.StatsCountFeeds` | pallets/phala-world/src/incubation.rs:297-303 | the totals of every era, past ones included, are the number of successful feedings of the shell in that era, in 32 bits |
| `Food.PastStatsAreFinal` | pallets/phala-world/src/incubation.rs:253-257 | the totals of an era that is over never change |
| `Food.FoodIsRationed` | pallets/phala-world/src/incubation.rs:267-295 | over any run no account feeds more than `FoodPerEra` times in an era, nor the same shell more than `MaxFoodFeedSelf` times (once, where that constant is 0) |
| `Food.EraFoodIsBounded` | pallets/phala-world/src/incubation.rs:267-303 | the stored totals of an era, summed over all shells, are at most `FoodPerEra` times the number of accounts that fed in it, and are exactly the feedings if that bound fits 32 bits |
| `Food.StoredTotalsAddUp` | pallets/phala-world/src/incubation.rs:297-303 | the stored totals of an era, summed over all shells, are at most the feedings of that era, and equal to them if those fit 32 bits |
| `Food.EraFeedsAreBounded` | pallets/phala-world/src/incubation.rs:267-303 | all feedings of an era together are at most `FoodPerEra` times the number of accounts that fed in it |
| `Food.FeedEffect` | pallets/phala-world/src/incubation.rs:259-303 | what feeding writes: the sender's list, fresh in a new era, one entry longer, and the shell's total |
| `Incubation.StartCall` | pallets/phala-world/src/incubation.rs:178-212 | a start succeeds if and only if the gate is open and the owner of an Origin of Shell makes it for the first time; it stores the official hatch time |
| `Incubation.FeedSucceedsIff` | pallets/phala-world/src/incubation.rs:231-293 | a feeding succeeds if and only if the gate is open, the shell incubates and is not past its hatch time, the sender owns some Origin of Shell, and it is within its rations of the era |
| `Incubation.FeedCallEffect` | pallets/phala-world/src/incubation.rs:259-303 | it appends the shell to the sender's list of the era, a fresh one in a new era, and adds one to the shell's total |
| `Incubation.HatchCallSucceedsIff` | pallets/phala-world/src/incubation.rs:325-440 | a hatch succeeds if and only if the overlord makes it, strictly after the hatch time of a live Origin of Shell, and the Shell collection is set and RMRK does its part |
| `Incubation.HatchCallEffect` | pallets/phala-world/src/incubation.rs:377-431 | owners, ids, frozen flags and traits after a hatch; all four labels of the burned NFT are gone |
| `Incubation.UpdateCall` | pallets/phala-world/src/incubation.rs:451-479 | an update succeeds if and only if the overlord makes it and every entry names an incubating Origin of Shell; each time falls by the sum of its reductions, stopping at zero |
| `Incubation.GateCall` | pallets/phala-world/src/incubation.rs:488-511 | the overlord sets the gate to the status, and the official hatch time to now plus the duration in 64 bits |
| `Incubation.GateFollowsTheLastCall` | pallets/phala-world/src/incubation.rs:488-511 | over any run the gate and the official hatch time are those of the overlord's last such call; without one, closed and 0 |
| `Incubation.HatchTimeFromTheGate` | pallets/phala-world/src/incubation.rs:200-507 | over any run a hatch time is the time at which the gate was last set before the start, plus the duration in 64 bits, minus all reductions, stopping at zero |
| `Incubation.IncubatesForTheDuration` | pallets/phala-world/src/incubation.rs:200-590 | so, where 64 bits suffice, a started shell is not past its time if and only if now and its reductions together come to no more than that time plus the duration (or now is 0) |
| `Hatching.HatchTimeClosedForm` | pallets/phala-world/src/incubation.rs:200-467 | over any run a shell has a hatch time if and only if it was started, and it is the official time at the start minus all reductions applied, stopping at zero |
| `Hatching.ReduceAllIs` | pallets/phala-world/src/incubation.rs:459-476 | a batch succeeds if and only if every entry names an incubating Origin of Shell, judged before the batch; each time then falls by the sum of its reductions, stopping at zero |
| `Hatching.ReductionOrderIsIrrelevant` | pallets/phala-world/src/incubation.rs:459-476 | permuting a batch, repeated entries included, changes neither whether it succeeds nor the storage it leads to |
| `Hatching.PastForGood` | pallets/phala-world/src/incubation.rs:587-590 | a shell past its hatch time stays past it in every continuation of a run |
| `Hatching.WhatCallsNeed` | pallets/phala-world/src/incubation.rs:195-352 | a start needs a shell that was not started, feeding one that is started and not past its time, hatching one that is past it and alive |
| `Hatching.LifeOfAShell` | pallets/phala-world/src/incubation.rs:178-440 | for any two successful calls on the same shell in a run: the later is not a start, and the earlier is not a hatch |
| `Hatching.NothingFedOncePast` | pallets/phala-world/src/incubation.rs:195-252 | in every run, from any instant at which a shell can hatch, every later call that feeds or starts it fails |
| `Hatching.NoFoodOncePast` | pallets/phala-world/src/incubation.rs:195-252 | the same over the continuations of any storage in which the shell can hatch |
| `Hatching.NftsEvolve` | pallets/phala-world/src/incubation.rs:382-386 | over any run an NFT that is still alive has the owner and the traits it had, and the id of a burned one is never used again |
| `Hatching.HatchPreserves` | pallets/phala-world/src/incubation.rs:377-431 | hatching burns the Origin of Shell and mints the next Shell to the same owner with the same rarity, race, career and generation |
| `Hatching.HatchSucceedsIff` | pallets/phala-world/src/incubation.rs:325-440 | exactly when a hatch succeeds in a reachable storage; the `expect`s on decoding and the NotDetected errors are never reached |
| `Invariants.HatchEffect` | pallets/phala-world/src/incubation.rs:325-440 | the whole effect of a successful hatch on the NFT ledger |
| `Codec.EncodingIs` | pallets/phala-world/src/traits.rs:42-69 | an enum is one byte, its index in the declaration, and the four bytes of a generation add up to it least significant first |
| `Codec.DecodingIs` | pallets/phala-world/src/traits.rs:42-69 | exactly which bytes decode, and to what |
| `Codec.RoundTrip` | pallets/phala-world/src/traits.rs:42-69 | decoding the SCALE bytes of rarity, race, career and generation returns what was encoded, whatever bytes follow |
| `Codec.DecodesOnlyEncodings` | pallets/phala-world/src/traits.rs:42-69 | bytes that decode start with the encoding of the result |
| `Pallets.Runtime.Dispatch` | pallets/phala-world/src/nft_sale.rs:404-419 | a call takes storage exactly to the model's next storage with the same outcome, an error leaves it as it was, and `WorldInv` is kept |
| `Pallets.Runtime.Finalize` | pallets/phala-world/src/nft_sale.rs:171-190 | the end of a block is the model's Finalize step |
| `Pallets.Runtime.Replay` | pallets/phala-world/src/nft_sale.rs:171-1083 | replaying any sequence of calls, block ends and outside events leaves the storage that the model's run leaves, and keeps `WorldInv` if the run is admissible |
| `Pallets.PhalaWorld.constructor` | pallets/phala-world/src/nft_sale.rs:221-235 | builds a storage with the given contents |
| `Pallets.PhalaWorld.ClaimSpirit` | pallets/phala-world/src/nft_sale.rs:405-424 | a Spirit for an account that can reserve the minimum balance, while claims are open |
| `Pallets.PhalaWorld.RedeemSpirit` | pallets/phala-world/src/nft_sale.rs:434-453 | a Spirit for an account with a ticket signed by the overlord |
| `Pallets.PhalaWorld.BuyRare` | pallets/phala-world/src/nft_sale.rs:467-499 | a Magic or Legendary mint at its price; Prime is InvalidPurchase |
| `Pallets.PhalaWorld.BuyPrime` | pallets/phala-world/src/nft_sale.rs:512-553 | a Prime mint for the whitelisted, or for anybody on the last day |
| `Pallets.PhalaWorld.PreorderOriginOfShell` | pallets/phala-world/src/nft_sale.rs:566-628 | checks, next id, escrow, the stored preorder and the flag |
| `Pallets.PhalaWorld.PlacePreorder` | pallets/phala-world/src/nft_sale.rs:594-620 | the id, the escrow, the preorder and the flag, in the source's order of failures |
| `Pallets.PhalaWorld.MintChosen` | pallets/phala-world/src/nft_sale.rs:638-695 | the loop over the ids with its index and break equals settling the first `IterLimit` ids in order |
| `Pallets.PhalaWorld.MintPreorder` | pallets/phala-world/src/nft_sale.rs:652-690 | one pass of that loop: take, unreserve, mint, clear the flag |
| `Pallets.PhalaWorld.RefundNotChosen` | pallets/phala-world/src/nft_sale.rs:705-748 | the loop over the ids with its index and break equals refunding the first `IterLimit` ids in order |
| `Pallets.PhalaWorld.RefundPreorder` | pallets/phala-world/src/nft_sale.rs:719-743 | one pass of that loop: take, unreserve, clear the flag |
| `Pallets.PhalaWorld.TakePreorder` | pallets/phala-world/src/nft_sale.rs:654-664 | the preorder leaves storage and its price is unreserved; only a missing id fails |
| `Pallets.PhalaWorld.MintGift` | pallets/phala-world/src/nft_sale.rs:762-797 | a free mint by the overlord from the giveaway or reserved pot |
| `Pallets.PhalaWorld.SetOverlord` | pallets/phala-world/src/nft_sale.rs:805-820 | governance names the overlord |
| `Pallets.PhalaWorld.InitializeWorldClock` | pallets/phala-world/src/nft_sale.rs:828-844 | sets zero day once, rounded down to whole eras |
| `Pallets.PhalaWorld.SetStatusType` | pallets/phala-world/src/nft_sale.rs:855-878 | sets exactly the gate that is named |
| `Pallets.PhalaWorld.InitRarityTypeCounts` | pallets/phala-world/src/nft_sale.rs:1207-1296 | twelve inserts, once: the initial inventory of every rarity and race |
| `Pallets.PhalaWorld.InsertInitialInventory` | pallets/phala-world/src/nft_sale.rs:1217-1291 | the twelve inserts give every entry of the initial inventory |
| `Pallets.PhalaWorld.UpdateRarityTypeCounts` | pallets/phala-world/src/nft_sale.rs:910-953 | tops up the four Prime entries, saturating, and no others |
| `Pallets.PhalaWorld.UpdateNftSaleInfo` | pallets/phala-world/src/nft_sale.rs:1305-1321 | tops up one entry if it is there and leaves the others alone |
| `Pallets.PhalaWorld.SetSpiritCollectionId` | pallets/phala-world/src/nft_sale.rs:961-978 | names the Spirit collection once |
| `Pallets.PhalaWorld.SetOriginOfShellCollectionId` | pallets/phala-world/src/nft_sale.rs:986-1004 | names the Origin of Shell collection once |
| `Pallets.PhalaWorld.SetSpiritsMetadata` | pallets/phala-world/src/nft_sale.rs:1039-1052 | stores the Spirits' metadata |
| `Pallets.PhalaWorld.SetOriginOfShellsMetadata` | pallets/phala-world/src/nft_sale.rs:1062-1080 | the insert loop stores the last metadata given for each race |
| `Pallets.PhalaWorld.MintSpirit` | pallets/phala-world/src/nft_sale.rs:1328-1368 | mints and freezes a Spirit for an account that has none |
| `Pallets.PhalaWorld.EnsureMayMint` | pallets/phala-world/src/nft_sale.rs:1390-1411 | the checks of a mint, in order, each with its error |
| `Pallets.PhalaWorld.MintAndCount` | pallets/phala-world/src/nft_sale.rs:1419-1448 | mint, label, count, freeze: the new NFT, its traits, the inventory entry and the career counter |
| `Pallets.PhalaWorld.MintOriginOfShell` | pallets/phala-world/src/nft_sale.rs:1379-1461 | checks, payment to the overlord, mint |
| `Pallets.PhalaWorld.LabelNft` | pallets/phala-world/src/nft_sale.rs:1470-1534 | writes the four attributes in SCALE |
| `Pallets.PhalaWorld.CountMint` | pallets/phala-world/src/nft_sale.rs:1438-1441 | one less in the pot, one more minted, one more of the career |
| `Pallets.PhalaWorld.DecrementRaceTypeLeft` | pallets/phala-world/src/nft_sale.rs:1582-1609 | takes one from the pot of the sale type |
| `Pallets.PhalaWorld.IncrementRaceType` | pallets/phala-world/src/nft_sale.rs:1552-1565 | adds one to the race counter |
| `Pallets.PhalaWorld.OnFinalize` | pallets/phala-world/src/nft_sale.rs:172-190 | `Era` moves by at most one, and only if a whole era is due |
| `Pallets.PhalaWorld.StartIncubation` | pallets/phala-world/src/incubation.rs:178-219 | the owner starts a shell that was not started; its time is the official one |
| `Pallets.PhalaWorld.FeedOriginOfShell` | pallets/phala-world/src/incubation.rs:231-312 | checks, the sender's list and the shell's total |
| `Pallets.PhalaWorld.NextFoodInfo` | pallets/phala-world/src/incubation.rs:267-291 | the list after feeding: fresh in a new era, bounded per shell and in all |
| `Pallets.PhalaWorld.HatchOriginOfShell` | pallets/phala-world/src/incubation.rs:325-440 | checks, traits read, burn, clear, mint, label |
| `Pallets.PhalaWorld.BurnThenMint` | pallets/phala-world/src/incubation.rs:377-431 | the NFT side of a hatch |
| `Pallets.PhalaWorld.UpdateIncubationTime` | pallets/phala-world/src/incubation.rs:451-479 | the loop over the entries equals reducing them one after the other, stopping at the first that fails |
| `Pallets.PhalaWorld.SetCanStartIncubation` | pallets/phala-world/src/incubation.rs:488-511 | sets the gate and the official hatch time, now plus the duration in 64 bits |
| `Pallets.PhalaWorld.SetShellCollectionId` | pallets/phala-world/src/incubation.rs:519-536 | names the Shell collection once |

## Left out

- Events, weights, fees, storage hashers and the `Pays::No` results.
- The genesis configuration other than the default (`nft_sale.rs:192-270`).
- The check of sr25519 signatures and the encoding of the signed message: an uninterpreted predicate.
- RMRK and pallet-uniques beyond owners, the frozen flag, attributes and id counters: nesting, resources, royalties,
  transfers, collection limits, deposits. Their refusals are the `Host`.
- The metadata string of a minted NFT. Only whether metadata is set, and the copy in a preorder, are modelled.
- `pw_create_collection`, a thin wrapper over RMRK, and `decrement_career_type`, which nothing calls.
- The `expect`s on storing attribute values (`nft_sale.rs:1482-1502`): `ValueLimit` is taken to be at least four bytes.
- Locks, and the width of balances, of times and of `Era`: unbounded here. The wrapping food totals, the wrapping official
  hatch time (as in a release build, without overflow checks), the saturating top-ups and the limits on preorder and NFT ids are modelled.
- The order of effects inside a call that fails: a transactional call's layer is dropped, so only its error is specified.
- Block production: the order of calls, block ends and steps of time in a run is arbitrary.
- The node, the runtime wiring and the scripts.
