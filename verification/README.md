# Chain engine, transaction inbox and record walks of a Chia full node

A Dafny model of the state-keeping core of a Rust Chia node, and proofs of what that core is for.

* **The chain engine** (`Coins` to `Scenarios`). Blocks arrive on any branch. Each one is checked against
  "store rows below the fork point plus an overlay of the branch", archived, and put through fork
  choice by cumulative weight; a heavier branch rolls the coin table back and replays. The reference
  for all of it is `Chain.Replay`: fold the block's own branch from genesis. The class `Engine.Engine`
  has the source's volatile overlays (`pending`, `staged`), its evicting record cache, and its store; a
  ghost `log` records every durable state, so a crash may be placed between any two commits.
* **The transaction inbox** (`TxOrder`, `Drr`, `TxInbox`). A trusted lane and one fee-ordered lane a
  peer, drained by deficit round robin.
* **The proof drain** (`Drain`, `HeaderBatch`). Workers over an atomic cursor and a failure flag, as
  single atomic steps under an arbitrary schedule. A read of the flag may miss a store, as relaxed
  ordering allows.
* **Record walks** (`RecordWalk`, `RecordCache`, `RecordWindow`, `RecordRepair`, `EpochWalk`,
  `ResumeFloor`). The record cache, and the walks that must agree with a plain store walk.
* **Wallet and admission** (`Wallet`, `Semaphore`, `Admission`, `Submissions`), and **bit slices** (`BitSlice`).

Main results, in the order a reader may want them:

1. `ForkOverlay.OverlayRefinesReplay` with `BranchWalk.WalkFork` and `BodyRules.ValidateCoinRules`: a
   block passes the coin rules exactly when its branch is stored and it meets them on the replay of
   that branch, whichever deltas came from memory and whichever were rebuilt.
2. `Engine.Engine.Confirm`, `AddBlock` and `ConfirmStagedBatch`: in every durable state
   `store.coins == Replay(main chain)`, exactly when the chain was started by a block fit to be first
   (`LedgerLaw.FirstExactly`); `Confirmation.DurableLaws` draws the consequences. A batched window ends as
   the sequential one, and each durable state on the way is the state after some prefix of the window.
   `LedgerStart.LawAfterRun` says of every run, however it started, what the table holds and exactly when
   that is the replay.
3. `BlockAdmission.FitIsAdmitted`, `BlockAdmission.AdmittedFits` and `CacheMirror.StagingKeepsMirror`: exactly when
   admission, which reads parents and reward records from the cache first, decides as the archive would.
4. `ForkChoice.PeakIsFirstHeaviest`: the peak after any run of archiving and confirming.
5. `Supply.SupplyIsConserved` and, with the reward schedule in numbers, `Rewards.SupplyInNumbers`;
   `Outputs.RowsBornAt`, `Supply.RewardsArePaid`, `Supply.RewardsClaimedOnce`.
6. `TxInbox.TxQueue.DrainBatch`: a drain serves each peer highest fee per cost first, and peers fairly in
   advertised costs; `Drr.PopExactly`, `TxInbox.TxQueue.PopUntrusted`.
7. `Drain.DrainIsAnd`, `Drain.DrainEnds`, `HeaderBatch.DedupKeyInjective`.
8. `RecordWindow.WindowedRecordsMap`, `RecordRepair.RepairWalkAncestry`, `RecordRepair.DepthFits`;
   `EpochWalk.WindowFinishes` and `EpochWalk.WindowAnchors`: a window of the computed depth answers the
   epoch walks as the whole history does; `ResumeFloor.FloorIsExact`, `ResumeFloor.BackfillFalls`, `ResumeFloor.BackfillConverges`.
9. `BitSlice.SliceU128FromBytes`, `Semaphore.RunConserves`, `Admission.RunBalances`,
   `Submissions.AnswersFollowLooks`, `Submissions.ResidentByAdmission`, `Admission.AnnouncedOncePerStay`, `Wallet.Registry.MatchPeers`.

## What is taken as given

* A coin id is its own preimage (`Id(coin)`): SHA-256 is collision free and has no cycles. That no
  coin id is created twice on a branch is then proved, `Chain.AdditionsAreFresh`.
* A hash names one block (`World`) and one record (`Source`) for ever.
* Header validation is the pure predicate `HeaderOk` with the bindings `HeaderBinds`; running a
  block's generator is the pure map from its body to its delta. A block whose generator refers back to
  the generators of other heights is among the blocks this is assumed of: when its delta is rebuilt from
  the store, the references are resolved on the main chain, so for a fork block the rebuilt delta may
  differ from the first one, or fail.
* A block taken as the base of an empty chain comes from the weight-proof pass, which vouches for its
  place (`Attested`).
* How the header walks of one derivation fare over the cache is an input (`HeaderWalk.Derivation`).
* Heights, weights and fees are unbounded integers. The places where width matters are written out:
  the 64-bit maximum amount, the checked addition of fees, saturating deficits, 64-bit shifts.

The engine's methods ask for one of two invariants. `Sturdy`: archive rows are linked, the flags are
the peak's ancestry, and the overlays agree with the archive. `Valid`: in addition stored spends were
validated, and every durable state keeps the ledger law. `Confirm` and the batch methods need only
`Sturdy`, and say exactly when `Valid` survives; admission needs `Valid`.

## Findings

* Without a peak, confirming takes any archived block first and applies its delta to the empty table, so
  a chain started above a transaction block lacks the coins of the blocks below it
  (`Scenarios.StartedTooHigh`). Extensions do not bring them back (`LedgerLaw.UnpaidStays`). A reorg rolls
  back to its fork and replays from there: it restores the replay exactly when the new branch is
  stored and has no transaction block above genesis below the start, or up to the fork if that is lower
  (`LedgerStart.SwitchExactly`, `Scenarios.ReorgRestores`).
* Staged records stay in the cache when their window is dropped and the overlay cleared, and admission
  takes a cached parent for a known one. A child of a dropped block can then be archived without a
  stored parent, which breaks the archive's links (`Scenarios.DroppedWindow`). Under full history an
  admitted block fits exactly when its parent is archived (`BlockAdmission.AdmittedFits`). Adding blocks
  one at a time, or confirming what was staged, puts no record in the cache that is not archived
  (`Engine.Engine.AddBlock`, `Engine.Engine.ConfirmStagedBatch`).
* A staged parent is read only from the cache, which keeps one record a height. A staged sibling takes
  its place, and the next block of the window is refused as an orphan although it fits
  (`Scenarios.ShadowedParent`). The mirror is kept exactly when an insert drops no record that is not
  durable yet (`CacheMirror.StagingKeepsMirror`), as in a window of one block a height that fits in the
  cache (`CacheMirror.WindowStaysCached`).
* The archive rows of a block that fails its window's deferred proofs become durable with the confirmed
  prefix, or at once near the tip. A heavier child that passes is then confirmed by a reorg that replays
  the failed block (`Scenarios.FailedBlockReturns`). A step keeps every main-chain block passed exactly
  when all blocks above its fork passed (`WindowDrain.StepPassedExactly`), and so does every run that
  confirms blocks only above blocks confirmed before them (`WindowDrain.InOrderPasses`).
* The store writes `spent_index = 0` for "unspent", so a spend at height 0 could not be recorded.
  `Chain.GenesisCreatesNothing` shows that none can occur.
* A heavier branch that reaches a different genesis is refused with an error: the walk finds no
  confirmed ancestor (`ForkChoice.Fails`, `Engine.Engine.Reorganize`). Main chain and coins do not
  change; the block's archive rows are durable, and its delta is pending.
* In the drain the non-serial verifier is used for a batch of one only: the number of workers never
  exceeds the number of kept proofs, so the "saturated" condition always holds (`HeaderBatch.VerifyVdfBatch`).
* The comment at the repair credits ascending inserts for keeping the walked records. With no cached
  height above the tip, the bound on the walk alone does it: no insert, in any order, evicts a record
  within the capacity below the tip (`RecordRepair.PutKeepsHigh`).
* The walk window covers the deepest walk plus the repair's slack at every height and for every
  constants set with nonzero epoch lengths (`RecordRepair.DepthFits`). A window of the computed depth can
  still miss a record at an epoch's turn: exactly when the second transaction block before the previous
  epoch's summary lies more than four sub-slots of blocks below that epoch (`EpochWalk.WindowAnchors`).

## Model

| member | source | states |
|---|---|---|
| Coins.AdditionOrigin | core/src/consensus/block_generator.rs:541-556 | every coin a block adds is an incorporated reward claim or a child of a coin it removes |
| Outputs.AdditionsExactly | core/src/consensus/block_generator.rs:541-556 | output j of spend i of a block is one of its additions: parent the spent coin, that output's puzzle and amount, the block's height and time, unspent, not coinbase; claims and outputs are all the additions |
| Outputs.AdditionIsOutput | core/src/consensus/block_generator.rs:541-556 | every addition after the claims is such an output |
| Outputs.RowsBornAt | node/src/engine.rs:2308-2333 | on a valid chain the rows born at a height are exactly the claims and outputs of the block there, with its time, coinbase exactly if a claim |
| Outputs.BlockBalances | node/src/engine.rs:1466-1494 | a block of a valid chain consumes what its outputs create plus its fees, the fees cover the reserve fee, and every coin fits 64 bits |
| CoinTable.ApplyAt | stores/src/sqlite/coin.rs:22-54 | what applying a delta does to the row of any one name: created, spent at this height, or untouched |
| CoinTable.ApplyBlock | stores/src/sqlite/coin.rs:22-54 | the upserts then the spent-updates, one statement at a time, give the delta applied as a whole |
| CoinTable.Rollback | stores/src/sqlite/coin.rs:59-75 | deleting rows confirmed above the fork and clearing spends above it gives `RollbackTo` |
| Chain.ReplayKeepsInv | node/src/engine.rs:1380-1540 | every table replayed from a valid chain has births and spends within the chain, and every child coin's parent present and spent |
| Chain.WeightsRise | node/src/engine.rs:924-938 | on a valid chain every block names the one below it, and weight rises strictly all the way |
| Chain.GenesisCreatesNothing | node/src/engine.rs:1554-1640 | an accepted genesis block adds and removes no coin at all |
| Chain.AdditionsAreFresh | node/src/engine.rs:1441-1464 | an accepted block never creates a coin id that its branch has created before |
| Ledger.AcceptedIsClean | node/src/engine.rs:1456-1464 | an accepted block creates only new coins and spends only unspent ones, each once |
| Ledger.RollbackUndoesSuffix | node/src/engine.rs:2377-2392 | rolling a valid chain's table back to height k is the replay of its first k+1 blocks, for every k |
| Ledger.BranchTable | node/src/engine.rs:1760-1823 | a chain's table is its prefix's table seen through what the suffix created and spent |
| Ledger.TableFromGenesis | node/src/engine.rs:2308-2333 | the replayed table holds exactly the coins the chain created, spent exactly where it spent them |
| Ledger.NoDoubleSpend | node/src/engine.rs:1450-1464 | on a valid chain no coin is spent by two blocks, and none is spent before it is created |
| Supply.AdditionsSplit | core/src/consensus/block_generator.rs:541-556 | a transaction block's additions are its claims and its children, disjoint |
| Supply.SupplyStep | node/src/engine.rs:1466-1494 | a block moves the unspent total by its claims less its fees |
| Supply.SupplyIsConserved | node/src/engine.rs:1466-1494 | on every valid chain, unspent total plus the last transaction block's fees equals all base rewards claimed |
| Rewards.Schedule | core/src/consensus/block_rewards.rs:8-56 | pool and farmer reward are seven eighths and one eighth of a block subsidy of 21 million coins at genesis, else two coins halved for each three years passed, four times at most |
| Rewards.BaseRewardsArePaid | core/src/consensus/block_rewards.rs:8-56 | the base rewards up to a height in closed form: genesis plus blocks in each three-year stretch times its subsidy |
| Rewards.SupplyInNumbers | node/src/engine.rs:1466-1494 | on every valid chain the unspent total plus the last transaction block's fees is that number |
| Rewards.RewardCoins | node/src/engine.rs:1554-1632 | the two reward coins of every block up to the claim mark, written out: parents, puzzles and amounts |
| Supply.RewardsArePaid | node/src/engine.rs:1547-1647 | both reward coins of every block up to the claim mark exist, the farmer's with that block's own fees |
| Supply.RewardsClaimedOnce | node/src/engine.rs:1547-1647 | any coin with a reward parent is the reward coin of one block at or below the claim mark |
| Supply.FeesDueAreFees | node/src/engine.rs:1577-1580 | within the claim window each farmer coin carries its own block's fees |
| Supply.FarmerClaimFits | node/src/engine.rs:1485-1490 | rule 18 keeps reward plus fees of every accepted block representable, so the later checked addition cannot fail |
| Archive.BranchAt | node/src/engine.rs:2416-2435 | each block of a known branch stands at its index, above its parent, and ends its own branch |
| Archive.CommonPrefix | node/src/engine.rs:1760-1771 | two known branches through one block agree up to that block |
| Archive.CompleteIsValid | node/src/engine.rs:1057-1094 | a branch whose bodies are all archived is a valid chain |
| MainChain.FlaggedAncestry | stores/src/sqlite/block.rs:69-138 | a flagged block's ancestry is flagged, and no two flagged blocks share a height |
| MainChain.FlaggedUpToFork | stores/src/sqlite/block.rs:82-106 | a branch is flagged exactly up to its fork point |
| MainChain.RecordByHeight | stores/src/sqlite/block.rs:185-196 | returns a flagged row of that height, and none only when there is none |
| MainChain.IsConfirmed | node/src/engine.rs:2437-2445 | on a consistent store, true exactly for flagged blocks |
| MainChain.FindFork | stores/src/sqlite/block.rs:82-106 | the walk finds the height of the deepest flagged ancestor, -1 when none |
| MainChain.Relink | stores/src/sqlite/block.rs:114-138 | flags end as the tip's ancestry; the number of flips is its distance from the fork |
| MainChain.SetPeak | stores/src/sqlite/block.rs:69-138 | the flags become exactly the new tip's ancestry and nothing above it, for any shape of reorg |
| ForkOverlay.OverlayRefinesReplay | node/src/engine.rs:1845-1924 | over the main chain's table, a removal resolves exactly when it is unspent in the branch's replay, with that replay's coin, birth height and time; double spend exactly when spent there, unknown exactly when never created there |
| ForkOverlay.FoldDelta | node/src/engine.rs:1715-1720 | additions become visible under their names, removals join the spent set |
| ForkOverlay.ViewGrows | node/src/engine.rs:1715-1720 | folding block k into a view of the blocks above k gives a view of the blocks from k up |
| ForkOverlay.SortRemovals | node/src/engine.rs:1857-1882 | first pass: own coins answered, a fork spend reported, the rest left for the store |
| ForkOverlay.ReadRows | node/src/engine.rs:1883-1887 | the batched read returns exactly the rows that exist |
| ForkOverlay.InterpretRows | node/src/engine.rs:1888-1909 | second pass: rows born below the fork answer or report a spend below it; the others go to the fork |
| ForkOverlay.ReadFork | node/src/engine.rs:1910-1923 | third pass: unknown exactly when the fork never added the coin |
| ForkOverlay.LookupRemovals | node/src/engine.rs:1849-1924 | succeeds exactly when every removal resolves, with one record a removal; otherwise the error of the first class that applies |
| ForkChoice.StepIsShaped | node/src/engine.rs:2267-2306 | fork choice on any archived block keeps rows and flags in order, whatever the coin table holds |
| ForkChoice.RunKeepsArchive | node/src/engine.rs:2267-2306 | no run of confirms changes an archive row |
| ForkChoice.RunIsAfter | node/src/engine.rs:598-705 | confirming a window in order without a failure is such a run of events, and processes exactly the window |
| ForkChoice.PeakIsFirstHeaviest | node/src/engine.rs:2280-2298 | after any run that interleaves archiving with confirming, from any store, the peak is the first heaviest among the blocks confirmed without failing and the peak it started from |
| LedgerLaw.EmptyUntilSecond | node/src/engine.rs:1554-1640 | a valid chain has created no coin exactly when no block above genesis is a transaction block |
| LedgerLaw.FirstExactly | node/src/engine.rs:2274-2279 | without a peak, confirming a stored block leaves the table equal to its replay exactly when its branch is stored and no ancestor above genesis is a transaction block |
| LedgerLaw.ExtensionReplays | node/src/engine.rs:2293-2297 | a stored block on the peak leaves the replay of its own branch |
| LedgerLaw.ForkTable | node/src/engine.rs:2377-2379 | rolling the table back to a branch's fork gives the replay of the shared blocks |
| LedgerLaw.MainIsComplete | node/src/engine.rs:1057-1094 | under the ledger law every flagged block has its whole ancestry stored |
| LedgerLaw.ReachableIsComplete | node/src/engine.rs:2416-2435 | under the ledger law a branch can be replayed exactly when it is stored down to genesis and meets the main chain |
| LedgerLaw.SwitchReplays | node/src/engine.rs:2376-2392 | a reorg to a reachable branch leaves the replay of that branch, table, flags and peak |
| LedgerLaw.StepReplays | node/src/engine.rs:2267-2306 | every step that does not fail keeps the ledger law, a first block if it is fit to be first |
| LedgerLaw.UnfitIsUnpaid | node/src/engine.rs:2274-2279 | a first block that is not fit leaves a table that lacks a coin of its branch |
| LedgerLaw.UnpaidStays | node/src/engine.rs:2308-2333 | a block that extends the peak of such a table leaves one like it |
| LedgerStart.SinceIsRecent | node/src/engine.rs:2308-2333 | the blocks of any chain from a height on, applied to an empty table, leave exactly the rows the whole chain's replay has born at that height or above |
| LedgerStart.FirstStarts | node/src/engine.rs:2274-2279 | the first block confirmed is where the chain starts |
| LedgerStart.ExtensionKeepsStart | node/src/engine.rs:2293-2297 | an extension keeps that height |
| LedgerStart.SwitchLowersStart | node/src/engine.rs:2376-2392 | a reorg lowers it to just above its fork, or keeps it when the fork is no lower |
| LedgerStart.StartDecides | node/src/engine.rs:2267-2306 | the table is the replay exactly when the branch is stored and no block between genesis and the start is a transaction block |
| LedgerStart.SwitchExactly | node/src/engine.rs:2342-2407 | a reorg from any such store gives the replay of its branch exactly when that branch is stored and has no transaction block above genesis below the old start or just above the fork, whichever is lower |
| LedgerStart.LawAfterRun | node/src/engine.rs:2267-2407 | after any run of archiving fitting blocks and confirming stored ones, the table is the peak's branch from the run's start on, and the ledger law holds exactly when nothing below that start made a coin |
| BranchWalk.FetchAncestor | node/src/engine.rs:1789-1821 | on a consistent store one step yields the branch's next block or its confirmed ancestor, from whichever place holds it |
| BranchWalk.WalkFork | node/src/engine.rs:1771-1843 | terminates on any store; on a consistent one succeeds exactly when the branch's bodies are stored, and then holds exactly what the branch did above a point shared with the main chain; an empty view when nothing holds the parent |
| BranchWalk.FetchDelta | node/src/engine.rs:2420-2424 | on a consistent store the block's own delta, exactly when its body is stored: the overlay changes neither |
| BranchWalk.CandidateBranch | node/src/engine.rs:2416-2435 | terminates on any store; on one in order it succeeds exactly when the branch meets the main chain and is stored above the fork, with the whole branch in height order, never a shorter one |
| BodyRules.RecordForWalk | node/src/engine.rs:1651-1659 | the block's own record, and there is one exactly when the block is cached or stored |
| BodyRules.OwedRewards | node/src/engine.rs:1554-1632 | the walk finds every record it reads exactly when the branch is traced, and then collects exactly the reward coins owed; the overflow error exactly when reward plus fees exceed 64 bits |
| BodyRules.ValidateRewardClaims | node/src/engine.rs:1547-1647 | rule 5 on any branch: passes exactly when the records are known and the claims are the coins owed, or, before full history, when a record is missing and nothing overflows |
| BodyRules.RewardsPassExactly | node/src/engine.rs:1547-1647 | on a valid branch whose records are known, rule 5 is that the claims are the coins owed, each once |
| BodyRules.AmountsInBounds | node/src/engine.rs:1408-1413 | rule 10, both ways |
| BodyRules.IndexAdditions | node/src/engine.rs:1441-1448 | rule 13, both ways, and the additions by name |
| BodyRules.RemovalsDistinct | node/src/engine.rs:1449-1454 | rule 14, both ways |
| BodyRules.SumRemoved | node/src/engine.rs:1467-1470 | the total of the coins removed |
| BodyRules.SumAdded | node/src/engine.rs:1471-1475 | the total of the additions that are not claims |
| BodyRules.VerdictIsSpendable | node/src/engine.rs:1849-1924 | with a ready overlay a removal resolves exactly when rule 15 lets the branch spend it, with its birth data |
| BodyRules.ValidateDelta | node/src/engine.rs:1408-1454 | passes exactly under rules 10, 13 and 14 |
| BodyRules.ResolveRemovals | node/src/engine.rs:1459-1464 | succeeds exactly when every removal is created by the block or unspent through the overlay, with one record a removal |
| BodyRules.ValidateSpends | node/src/engine.rs:1456-1494 | passes exactly under rules 15 to 19, read through the overlay over the table |
| BodyRules.OverlayRulesAreReplays | node/src/engine.rs:1456-1494 | with a ready overlay those rules are the rules on the replay of the block's own branch |
| BodyRules.WalkForBlock | node/src/engine.rs:1771-1823 | for an archived parent, succeeds exactly when the branch is stored, with an overlay ready for rule 15; for a parent nothing holds, the empty overlay |
| BodyRules.ValidateCoinRules | node/src/engine.rs:1380-1540 | under full history, with parent and reward records known, passes exactly when the parent's branch is stored and the block meets rules 5, 10 and 13 to 19 on its replay; with a parent only the cache holds, exactly under those rules on the main chain's rows; before full history, exactly under rules 5, 10, 13 and 14; the records returned date every removed coin, the block's own included, as the replay with the block does |
| ChainEngine.MainIsLighter | node/src/engine.rs:2280-2292 | no block of the main chain outweighs the peak |
| ChainEngine.PlainGenesisFits | node/src/engine.rs:1554-1640 | a genesis block that claims, spends and reserves nothing is accepted by an empty store |
| ChainEngine.PersistIsShaped | node/src/engine.rs:1057-1094 | archiving a block keeps the archive linked exactly when its parent is archived below it, and the ledger is untouched |
| ChainEngine.PersistIsVetted | node/src/engine.rs:1057-1094 | archiving a linked block keeps every stored spend validated exactly when the block fits |
| ChainEngine.ExtendIn | node/src/engine.rs:2308-2333 | coins then peak in one batch are the linear step of fork choice |
| ChainEngine.ReorgIn | node/src/engine.rs:2376-2392 | rollback, replay and flip in one batch are the reorg step of fork choice; fork height and flips are exact |
| WindowRun.CommitsArePrefixes | node/src/engine.rs:614-627 | the commits of the fast path are states after prefixes of the window, at either granularity |
| WindowRun.LaggingCatchesUp | node/src/engine.rs:685-696 | a batch whose flags lag behind its coins catches up with one flip to the last block |
| WindowRun.RunIsGood | node/src/engine.rs:700-704 | from a good start every state a window goes through keeps the ledger law |
| WindowRun.RunIsUnpaid | node/src/engine.rs:628-684 | from an unfit first block every state of the fast path lacks a coin of its branch |
| WindowRun.CommitsAreGood | node/src/engine.rs:628-696 | all commits of the fast path keep the ledger law exactly when there was a peak or the first block is fit to be first |
| Engine.Engine.constructor | node/src/engine.rs:327-345 | an engine over any store in order is in order, and valid if that store keeps the ledger law |
| Engine.Resume | node/src/engine.rs:327-345 | an engine opened on any durable state of another, as after a crash, is in order, and valid if the other kept the ledger law |
| Engine.Engine.Reorganize | node/src/engine.rs:2342-2407 | succeeds exactly when the branch meets the main chain and is stored above the fork; one durable state, or none and the delta pending; an error when nothing holds the parent |
| Engine.Engine.RemovePending | node/src/engine.rs:2393-2395 | removes exactly the branch's deltas |
| Engine.Engine.Settle | node/src/engine.rs:2291-2306 | after fork choice the record is cached, a block that won leaves the overlay, and the overlay is pruned to the horizon |
| Engine.Engine.Confirm | node/src/engine.rs:2267-2306 | outcome, store, overlay, cache and durable states as fork choice says; fails exactly when a winner's branch cannot be replayed; the ledger law holds in every durable state exactly when there was a peak or the block is fit to be first; a row without a stored parent becomes durable and pending, or the base of an empty chain |
| Confirmation.ConfirmLaw | node/src/engine.rs:2267-2306 | the batch keeps the ledger law, and the step from it does exactly when there was a peak or the block is fit to be first |
| Engine.Engine.Advance | node/src/engine.rs:2308-2333 | the linear step in one commit |
| Engine.Engine.CoinRulesEnforced | node/src/engine.rs:1358-1372 | on a store in order full history is on exactly when decided before, when there is a peak, or at genesis; never switched off |
| BlockAdmission.FitIsAdmitted | node/src/engine.rs:855-999 | a block that fits is refused exactly when there is a peak and its parent is neither cached nor durable, or, under full history, a record of its reward walk is neither |
| BlockAdmission.AdmittedFits | node/src/engine.rs:855-999 | under full history an admitted block fits exactly when its parent is archived |
| BlockAdmission.ClearIsExact | node/src/engine.rs:855-999 | with parent archived, parent and reward records in reach and full history on, admission is exactly `Fits` |
| BlockAdmission.MirrorIsClear | node/src/engine.rs:1651-1659 | while the cache mirrors the archive, every block with an archived parent is such a block |
| StagePreload.AlreadyConfirmed | node/src/engine.rs:861-892 | for any staging context, the answer of its arms: by row and peak height for a covered block, by the flags otherwise |
| StagePreload.ContextIsExact | node/src/engine.rs:733-757 | while only rows were added since it was read, the staging context gives the flags' answer for every block |
| Engine.Engine.PreloadStageContext | node/src/engine.rs:734-757 | a context just read changes no answer: a block is had exactly when it is pending or on the main chain |
| Engine.Engine.Vet | node/src/engine.rs:861-950 | already-have, admitted and refused before a record is derived, each exactly characterised for every cache and staging context |
| Engine.Engine.DeriveRecord | node/src/engine.rs:967-997 | succeeds exactly when nothing was missed, or the repair loads something and nothing is missed again; the cache gains exactly the loaded records, lowest first |
| HeaderWalk.LoadedIsDurable | node/src/engine.rs:1015-1051 | every record a derivation loads is durable, was not cached, and is its block's own |
| Engine.Engine.PrepareDelta | node/src/engine.rs:855-999 | already-have, accepted and refused, each exactly characterised for every cache, staging context and outcome of the header walks; an accepted block yields its own delta; an orphan error when there is a peak and the parent is neither cached nor durable; the cache changes by the loaded records only |
| Engine.Engine.AddBlock | node/src/engine.rs:445-463 | a known or refused block changes no durable state; otherwise the row is durable, and on a linked archive store and ledger are those of archiving then confirming it; the engine is valid again exactly when the block fits and may start; without a stored parent the row dangles: pending, an error if it outweighs the peak, the base of the chain if there is none; no foreign record enters the cache |
| Engine.Engine.StageBlock | node/src/engine.rs:524-560 | accepted exactly as above; archived in the open batch with overlay and cache entry, nothing durable; the batch stays in order exactly when the block fits; the cache is the loaded records and then the block's, put in order |
| Engine.Engine.StageBlockNow | node/src/engine.rs:487-506 | the same near the tip, with the rows durable at once; the engine stays valid exactly when the block fits |
| Engine.Engine.ClearStagedOverlay | node/src/engine.rs:727-732 | overlay and staging context are gone and the engine in order over its durable store; what staging cached stays cached |
| Engine.Engine.ConfirmStaged | node/src/engine.rs:711-721 | one step of fork choice on an archived block, its staged entry gone; the ledger law exactly as for Confirm |
| Engine.Engine.ApplyOne | node/src/engine.rs:632-668 | one fast-path block: durable with its peak near the tip, otherwise gathered in the batch; its overlay entries gone, its record cached |
| Engine.Engine.ApplyPrefix | node/src/engine.rs:628-684 | applies the longest prefix that plainly extends the running peak, with the outcomes of confirming it in order |
| Engine.Engine.ConfirmPrefix | node/src/engine.rs:620-697 | after the tail commit the store is that of confirming the prefix one by one |
| Engine.Engine.Seal | node/src/engine.rs:691-696 | the open batch becomes durable with the peak of the last applied block |
| Engine.Engine.ConfirmEach | node/src/engine.rs:700-704 | the rest of the window in order, failing exactly where the sequence does |
| Engine.Engine.ConfirmStagedBatch | node/src/engine.rs:598-705 | same outcomes, store and failure point as confirming the window in order, at either granularity and with any carried batch; every durable state is one after some prefix; the ledger law holds in all of them exactly when there was a peak or the first block is fit to be first; an empty window drops the batch and nothing else |
| WindowDrain.ConfirmUpto | node/src/sync/mod.rs:1334-1412 | the window is confirmed up to a block such that all below it passed proofs and signatures; all of it exactly when both passed as a whole, up to the first block that fails when each failed window has one, and none when a failed window has none |
| WindowDrain.StepPassedExactly | node/src/sync/mod.rs:1409-1432 | a step of fork choice keeps every main-chain block passed exactly when every block above its fork passed |
| WindowDrain.InOrderPasses | node/src/sync/mod.rs:1409-1432 | in every run that confirms passed blocks above blocks confirmed before them, every main-chain block has passed |
| Confirmation.DurableLaws | node/src/engine.rs:2267-2407 | where the log keeps the ledger law, in every durable state the coin table is the replay of its own peak's chain, with exactly that chain's coins and spends, no coin spent by two blocks, and the supply law |
| CacheMirror.CachedAfter | node/src/cache.rs:52-74 | after an insert a record is cached exactly when it is new or was cached, and neither shares the new one's height nor is the lowest of a full cache |
| CacheMirror.StagingKeepsMirror | node/src/engine.rs:551-561 | staging keeps the cache a mirror of the archive exactly when its inserts, the repair's and its own, drop no record that is not durable yet |
| CacheMirror.WindowStaysCached | node/src/cache.rs:52-74 | a window of one block a height that fits in the cache, staged upwards, drops none of its own records |
| CacheMirror.RepairKeepsAncestry | node/src/engine.rs:1045-1050 | with nothing cached above the parent, the repair drops no record of the ancestry it walks, durable or not |
| Scenarios.StartedTooHigh | node/src/engine.rs:2274-2279 | a concrete store where confirming a block above the payer of genesis' rewards starts a chain whose table lacks them |
| Scenarios.ReorgRestores | node/src/engine.rs:2376-2392 | on the same store a reorg that forks below that payer leaves the replay again |
| Scenarios.DroppedWindow | node/src/engine.rs:1114-1136 | a concrete run: a staged window is dropped and cleared, and a child of its block is archived on the cached record alone, without a parent |
| Scenarios.ShadowedParent | node/src/cache.rs:52-60 | a concrete run: a staged sibling takes the parent's place in the cache, and a block that fits is refused as an orphan |
| Scenarios.FailedBlockReturns | node/src/sync/mod.rs:1409-1432 | a concrete store where a passing child of a block that failed its window brings that block onto the main chain |
| TxOrder.FlipCompare | full-node/src/tx_queue.rs:44-56 | the comparator is total and antisymmetric, zero-cost entries included |
| TxOrder.NotAfterTransitive | full-node/src/tx_queue.rs:44-56 | cross multiplication is transitive, zero-cost entries included |
| TxOrder.InsertedIsStable | full-node/src/tx_queue.rs:139-145 | an insert joins the end of its rank and disturbs no other rank |
| TxOrder.LaneIsStableSort | full-node/src/tx_queue.rs:139-145 | a lane is its arrivals sorted by fee per cost, stably: ordered, same multiset, arrival order in each rank |
| TxOrder.LaneByFee | full-node/src/tx_queue.rs:44-56 | the same in advertised fees and costs: no entry before one that pays more per cost, entries without a cost last, arrival order among those that pay the same |
| Drr.RefillUnblocks | full-node/src/tx_queue.rs:194-203 | after a refill by the lowest top cost some peer can pay, so a second pass always serves |
| Drr.PopIsEmpty | full-node/src/tx_queue.rs:163-205 | a pop yields nothing exactly when no lane has an entry |
| Drr.PopEffect | full-node/src/tx_queue.rs:178-192 | a pop moves the front entry of one lane and touches no other queue |
| Drr.PopIsFair | full-node/src/tx_queue.rs:163-205 | served cost plus deficit is the same credit for all waiting peers, and a deficit stays below twice the highest price |
| Drr.TraceIsLane | full-node/src/tx_queue.rs:210-215 | after any number of pops, each peer's served entries followed by what is left are its lane |
| Drr.DrainIsFair | full-node/src/tx_queue.rs:152-221 | at any point of a run from zero deficits, costs served to any two waiting peers differ by less than twice the highest price |
| Drr.DrainIsFairInCosts | full-node/src/tx_queue.rs:150-221 | the bound in advertised costs, an entry without one counting as the fallback |
| Drr.PopExactly | full-node/src/tx_queue.rs:163-205 | who a pop serves: the first peer from the cursor whose deficit covers its first entry's cost, with no credit if some peer can pay and else the cheapest first entry's cost to every waiting peer; what it is charged, what the others keep, and that the next walk starts just past it |
| TxInbox.PopsUntilEmpty | full-node/src/tx_queue.rs:163-167 | the counted backlog is zero exactly when a pop finds nothing |
| TxInbox.WalkDecides | full-node/src/tx_queue.rs:168-204 | one pass, or one refill and a second pass, decide every pop |
| TxInbox.FairDrain | full-node/src/tx_queue.rs:152-221 | the fairness bound read off what a drain handed on: at every cut, for any two peers both still owed an entry |
| TxInbox.FairDrainInCosts | full-node/src/tx_queue.rs:150-221 | the same bound in advertised costs |
| TxInbox.DrainServesFairly | full-node/src/tx_queue.rs:210-221 | a finished drain, read from its own sequence alone: at every cut, two peers both with entries to come were served costs that differ by less than twice the largest |
| TxInbox.DrainServesAll | full-node/src/tx_queue.rs:210-221 | a finished drain served every peer its arrivals, stably sorted, and nobody else anything |
| TxInbox.TxQueue.constructor | full-node/src/tx_queue.rs:92-104 | empty, with the cost fallback floored at one |
| TxInbox.TxQueue.Position | full-node/src/tx_queue.rs:139-144 | the first entry that must stand after the new one |
| TxInbox.TxQueue.Push | full-node/src/tx_queue.rs:112-148 | admitted exactly when trusted or both caps have room; arrivals and length move by that entry only; caps and lane order kept |
| TxInbox.TxQueue.Pass | full-node/src/tx_queue.rs:171-180 | the first peer in cursor order that can pay, else the lowest top cost |
| TxInbox.TxQueue.Refill | full-node/src/tx_queue.rs:194-203 | exactly the peers with entries gain the amount |
| TxInbox.TxQueue.Serve | full-node/src/tx_queue.rs:180-192 | the front entry leaves, its cost is charged or the deficit cleared, the cursor moves past the peer |
| TxInbox.TxQueue.PopUntrusted | full-node/src/tx_queue.rs:163-205 | at most two walks; none exactly when the backlog is empty; otherwise the pop of the scheduler, which `Drr.PopExactly` describes |
| TxInbox.TxQueue.DrainBatch | full-node/src/tx_queue.rs:210-221 | the trusted lane in order, then everything admitted since the last drain, each peer's highest fee per cost first and fairly between peers in advertised costs; the queue is reset |
| TxInbox.TxQueue.Clear | full-node/src/tx_queue.rs:226-232 | everything queued is gone |
| Drain.MoveKeeps | node/src/header.rs:224-259 | every atomic step keeps: a claimed bad job is held or blamed, blame means a bad job exists, a clean finish means all were claimed |
| Drain.DrainIsAnd | node/src/header.rs:217-262 | every finished interleaving of any number of workers returns the conjunction of all checks, with stale flag reads allowed |
| Drain.DrainEnds | node/src/header.rs:224-259 | no interleaving takes more than three steps a job and two a worker |
| Drain.RunPool | node/src/header.rs:219-262 | under any scheduler the pool ends and returns that conjunction |
| HeaderBatch.BigEndianInjective | node/src/header.rs:161-161 | fixed-width big-endian bytes determine the number |
| HeaderBatch.DedupKeyInjective | node/src/header.rs:155-175 | two queued verifications share a key exactly when they agree in every field |
| HeaderBatch.FirstsCover | node/src/header.rs:192-200 | every queued proof has an equal one that was kept |
| HeaderBatch.FirstsDiffer | node/src/header.rs:192-200 | no proof is kept twice |
| HeaderBatch.Dedup | node/src/header.rs:192-200 | keeps the index of the first of each group of equal proofs |
| HeaderBatch.SortByWitness | node/src/header.rs:201-205 | a permutation by falling witness type in which the proofs of each type keep their order |
| HeaderBatch.VerifyVdfBatch | node/src/header.rs:179-268 | true exactly when every queued proof verifies, for every queue, core count and scheduler |
| HeaderBatch.VerifySigBatch | node/src/header.rs:279-317 | true exactly when every signature verifies, that is when `FirstFailingSig` finds none |
| HeaderBatch.FirstFailingSig | node/src/header.rs:319-322 | none exactly when all verify, else the tag of the first that does not |
| RecordWalk.WalkIsBetween | full-node/src/record_window.rs:108-128 | a walk during store growth meets at least the old store's walk and at most the new one's |
| RecordWalk.SteadyWalk | full-node/src/record_window.rs:108-128 | over a store that stays as it is, the timed walk is the plain one |
| RecordCache.SetAgrees | node/src/cache.rs:52-66 | replacing the record at a height keeps the three maps in one-to-one agreement |
| RecordCache.WithoutAgrees | node/src/cache.rs:67-73 | so does evicting a height |
| RecordCache.BlockRecordCache.constructor | node/src/cache.rs:20-27 | empty, with capacity at least one |
| RecordCache.BlockRecordCache.Insert | node/src/cache.rs:52-74 | the window gains the record at its height and loses its lowest height if over capacity; the maps agree and the capacity holds |
| RecordCache.BlockRecordCache.Get | node/src/cache.rs:77-79 | the window's record of that hash, none only when it has none |
| RecordCache.BlockRecordCache.GetByHeight | node/src/cache.rs:88-91 | the window's record at that height |
| RecordCache.BlockRecordCache.SubEpochSummaryAtOrBelow | node/src/cache.rs:95-100 | the highest cached summary at or below the height |
| RecordWindow.CachedIsGenuine | full-node/src/record_window.rs:36-42 | a cached copy is in the store and equal to the store's record |
| RecordWindow.InsertAll | full-node/src/record_window.rs:81-86 | inserts of store records, by this or another caller, keep the cache a subset of the store |
| RecordWindow.WindowedRecordsMap | full-node/src/record_window.rs:43-94 | equals the plain depth-bounded walk over a growing store, whatever other callers insert or evict between reads |
| RecordRepair.DepthFits | core/src/consensus/difficulty_adjustment.rs:366-387 | the deepest walk plus the slack fits the walk window at every height |
| EpochWalk.CanFinish | core/src/consensus/difficulty_adjustment.rs:35-69 | the walk to the sub-epoch boundary over a partial window: misses a record exactly when the window ends above the last summary, or the boundary if there is none; else the answer of the chain |
| EpochWalk.SecondToLastTx | core/src/consensus/difficulty_adjustment.rs:71-139 | the walk into the previous epoch over a partial window: which block it finds, and exactly when it is too far, finds no summary, or misses a record |
| EpochWalk.FloorReaches | core/src/consensus/difficulty_adjustment.rs:373-387 | the window reaches four sub-slots below the sub-epoch boundary, at an epoch's turn below the previous epoch's start, or genesis, and no further |
| EpochWalk.WindowFinishes | core/src/consensus/difficulty_adjustment.rs:373-387 | a window of that depth answers the first walk as the whole history does, at every height |
| EpochWalk.WindowAnchors | core/src/consensus/difficulty_adjustment.rs:373-387 | and the second, errors included, at every turn of an epoch, except exactly when the block the history finds lies below the window |
| EpochWalk.WindowSuffices | core/src/consensus/difficulty_adjustment.rs:373-387 | two transaction blocks in the last four sub-slots before the previous epoch are enough for that never to happen |
| EpochWalk.WalkIsWindow | full-node/src/record_window.rs:43-94 | the plain walk of that depth collects exactly that window |
| EpochWalk.MainnetDepths | core/src/consensus/difficulty_adjustment.rs:649-680 | the depths on the main network at a late offset, a boundary, two turns of an epoch and the deepest |
| RecordRepair.RepairIsDeepEnough | node/src/engine.rs:1020-1022 | with that capacity the cap on the repair never binds |
| RecordRepair.PutKeepsHigh | node/src/cache.rs:52-74 | with nothing cached above a height, no insert evicts a record within the capacity below it |
| RecordRepair.FetchMissing | node/src/engine.rs:1023-1042 | the walk over cache and store collects exactly what the cache lacked, in walk order |
| RecordRepair.RepairWalkAncestry | node/src/engine.rs:1015-1051 | over store and cache together, foreign cached records included: loads exactly what the cache lacked of the walk; with no cached height above the tip the whole walk is cached afterwards; zero exactly when nothing lacked |
| RecordRepair.RepairTwice | node/src/engine.rs:1015-1051 | a second repair loads zero |
| RecordRepair.WarmCacheFromStore | node/src/engine.rs:402-422 | loads exactly the walk from the peak up to the capacity, and it is all cached |
| ResumeFloor.MeasureRecordFloor | full-node/src/resume_floor.rs:44-76 | on any store, cycles included, at most span plus 17 reads |
| ResumeFloor.FloorIsExact | full-node/src/resume_floor.rs:44-76 | on consecutive records: reached exactly when the ancestry is unbroken to the needed height; otherwise the stop is the lowest held ancestor, its parent missing |
| ResumeFloor.BackfillLowers | full-node/src/resume_floor.rs:29-38 | fetching the missing parent strictly lowers the stop or reaches the floor |
| ResumeFloor.ReachedStays | full-node/src/resume_floor.rs:44-76 | more records never break a floor that is reached |
| ResumeFloor.BackfillFalls | full-node/src/resume_floor.rs:29-38 | while the floor is broken, each round of fetching the record at the gap fetched one that was missing, and the break fell by at least one a round |
| ResumeFloor.BackfillConverges | full-node/src/resume_floor.rs:29-38 | after as many rounds as heights are owed, and ever after, the floor is reached |
| Wallet.EnterIndexed | full-node/src/wallet.rs:359-361 | entering a peer keeps the reverse index exact |
| Wallet.ScrubIndexed | full-node/src/wallet.rs:86-101 | scrubbing a peer keeps the reverse index exact, with no empty bucket left |
| Wallet.AdmittedIsNew | full-node/src/wallet.rs:346-358 | each admitted item is listed, new and admitted once |
| Wallet.AdmittedIsAll | full-node/src/wallet.rs:346-358 | an item is left out only when the cap is met |
| Wallet.AdmittedFits | full-node/src/wallet.rs:340-358 | no call adds past the cap |
| Wallet.Admit | full-node/src/wallet.rs:346-358 | the loop admits exactly the new items in order until the cap |
| Wallet.Registry.constructor | full-node/src/wallet.rs:72-78 | an empty registry agrees |
| Wallet.Registry.MatchPeers | full-node/src/wallet.rs:108-127 | exactly the peers a scan of every subscriber would find |
| Wallet.Registry.EnsureChannel | full-node/src/wallet.rs:299-320 | refused exactly when the peer is new and the registry full |
| Wallet.Registry.RegisterForPhUpdates | full-node/src/wallet.rs:330-362 | the new puzzle hashes up to the cap join this peer alone; the index agrees |
| Wallet.Registry.RegisterForCoinUpdates | full-node/src/wallet.rs:364-395 | the same for coin ids |
| Wallet.Registry.RemovePhSubscriptions | full-node/src/wallet.rs:234-265 | removes all, or exactly the listed that were there, each once; the index agrees |
| Wallet.Registry.RemoveCoinSubscriptions | full-node/src/wallet.rs:267-295 | the same for coin ids |
| Wallet.Registry.DropPeer | full-node/src/wallet.rs:82-102 | the peer is gone from the registry and both indexes, nobody else is touched |
| Wallet.Registry.RetainLive | full-node/src/wallet.rs:408-419 | exactly the live subscribers stay |
| Semaphore.MoveConserves | full-node/src/wallet.rs:587-626 | every atomic step keeps slots, refusals in flight and the counter at the two limits, and permits at the active limit |
| Semaphore.RunConserves | full-node/src/wallet.rs:573-627 | so does every interleaving; slots never exceed both limits, active holders never the active one |
| Semaphore.QuietIsFull | full-node/src/wallet.rs:573-627 | with nothing in flight the semaphore is back at its start |
| Semaphore.RefusedWhenFull | full-node/src/wallet.rs:608-616 | an acquire fails exactly when slots and refusals in flight fill both limits |
| Semaphore.SomeoneMoves | full-node/src/wallet.rs:617-626 | while anything is in flight some task can move |
| Admission.AdmitsAreNew | full-node/src/tx_admission.rs:151-162 | a submission logs an admission exactly when it makes its name resident |
| Submissions.AnswersFollowLooks | full-node/src/tx_admission.rs:92-169 | in every run each submission's answer follows from what it found when it took the lock: success exactly if its name was resident at one of its looks or it was admitted and announced; already-including exactly if seen and not resident on arrival; invalid exactly after failed validation; rejected exactly when the mempool refused; store error exactly on a store fault |
| Submissions.ResidentByAdmission | full-node/src/tx_admission.rs:151-162 | in every run a submission makes its name resident exactly when validation and mempool both said good and the name was resident at neither look; it makes no other name resident |
| Submissions.AdmissionsAreCounted | full-node/src/tx_admission.rs:151-162 | in every run the admissions of a name are the submissions of it that were admitted |
| Submissions.AnnouncesAreCounted | full-node/src/tx_admission.rs:163-168 | and its announces, with those still owed, are as many |
| Submissions.SeenFollowsLooks | node/src/mempool.rs:817-838 | in every run, the seen list after one more look: the name joins at the end when validation failed or it was admitted, the oldest leaving a full list of 10 000; it leaves when found resident on arrival; otherwise nothing changes |
| Admission.RunBalances | full-node/src/tx_admission.rs:92-169 | in every run, for every name, announces queued plus announces owed are its admissions |
| Admission.AllAnnounced | full-node/src/tx_admission.rs:163-168 | once all submissions answered, each admission was announced exactly once |
| Admission.ResidencyBalances | full-node/src/tx_admission.rs:151-162 | in every run a name came in, by admission or promotion, as often as it left, and once more if it is resident |
| Admission.AnnouncedOncePerStay | full-node/src/tx_admission.rs:92-169 | in every run a name is announced at most once more than it left the mempool, so a duplicate that lost never announces |
| Admission.AddSeenIsTidy | node/src/mempool.rs:817-827 | the seen list stays within its bound without repeats and holds the new name |
| Admission.RemoveSeenIsTidy | node/src/mempool.rs:834-838 | exactly that name leaves the seen list |
| Admission.SeenMeansDecided | full-node/src/tx_admission.rs:113-162 | a name joins the seen list only by a failed validation or an admission; a store fault leaves no trace |
| Admission.SeenStaysTidy | node/src/mempool.rs:817-838 | the seen list is bounded and without repeats in every run |
| BitSlice.SliceSplits | proof_of_space/src/util.rs:62-71 | a slice is its high bits followed by its low bits |
| BitSlice.SliceOfWord | proof_of_space/src/util.rs:36-48 | a slice inside eight bytes is a slice of their word |
| BitSlice.ShiftsSlice | proof_of_space/src/util.rs:44-47 | a left then a right shift of a 64-bit word is the quotient and remainder of those bits |
| BitSlice.OrIsSum | proof_of_space/src/util.rs:56-56 | the or of disjoint bits is their sum |
| BitSlice.BytesToU64 | proof_of_space/src/util.rs:3-15 | the first eight bytes, zero padded, big endian |
| BitSlice.SliceU64FromBytes | proof_of_space/src/util.rs:36-48 | the slice, or when it runs past the word the part the word holds, shifted into place |
| BitSlice.SliceU64FromBytesFull | proof_of_space/src/util.rs:50-60 | for 1 to 64 bits exactly the slice of the zero-extended number, ninth byte and reads past the end included |
| BitSlice.SliceU128FromBytes | proof_of_space/src/util.rs:62-71 | the same for 1 to 128 bits |

## Left out

- Header, VDF, proof-of-space, BLS and CLVM validation: pure predicates here, since their outcomes only gate what the model does.
- Body rules 3, 11, 12, 20 and 21, and the future-timestamp check: they compare hashes, filters, stored puzzle hashes and time locks, and keep no state.
- Stores anchored above genesis: a block without a stored parent is followed to the durable state it leaves, as the base of an empty chain or as a dangling row, and no further.
- Engine.Engine.PrepareDelta: the place of a base block on an empty chain is assumed (`Attested`), because no record is there to check it against.
- BranchWalk.FetchDelta: a rebuilt delta is the block's own, because resolving generator references is not modelled; see what is taken as given.
- Archiving a record without its body (node/src/engine.rs:1101-1107): an entry point that only tests use.
- Engine.Engine.AddBlock: a restart's warm-up of the cache is not part of the engine class; it is `RecordRepair.WarmCacheFromStore`, and inserts stored records only.
- Hint rows, reorg reports, rolled-back coin states and staged generators: side outputs that nothing modelled reads back, the last but to resolve generator references.
- Store failures inside a batch: a dropped batch is the durable state before it, which the log of durable states already covers.
- BranchWalk.CandidateBranch: builds the branch front first where the source pushes and reverses, because the order of the result is what is stated.
- Coins: SHA-256 and the reward parent ids are free terms, so a hash collision is outside the model.
- CoinTable.ApplyBlock: applies additions and removals in the given order where the store sorts them by name, because names are distinct.
- Drain: a worker that panics counts as failed in the source; verification is a total function here.
- EpochWalk: the retargeting arithmetic, and the short walk from the parent to the last transaction block before the signage point, are not modelled.
- RecordRepair.DifficultyRecordDepth: 32-bit overflow at heights near 2^32 is not modelled, because no chain reaches it.
- Wallet: a register call is one atomic step, so the gap between its two lock scopes is not modelled; delivery channels and pushes are not modelled.
- Semaphore: cancellation of a pending acquire, and limits that exceed the counter's 64 bits, are not modelled.
- Admission: the announce list is a log, so its draining by the daemon is not modelled; residents that the mempool promotes by itself are allowed but announced elsewhere.
- The mempool's own admission rules, fee estimation, address book, peak book, RPC, networking, TLS and configuration: separate concerns that would add only easier members.
