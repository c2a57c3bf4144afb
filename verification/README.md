# Court, global disputes and Merkle utilities in Dafny

A model of three components, with the properties their code relies on but states only as debug assertions,
"should never happen" branches or comments:

- the **court pallet**: a stake-sorted pool of jurors and delegators, random draws, commit-reveal voting in timed
  windows, appeals, verdicts, reassignment of stakes, inflation;
- the **global-disputes pallet**: token-holder votes with a cached leader, vote locks that mirror one currency lock,
  and clean-up in bounded batches before rewards or refunds;
- the **Merkle utilities**: a root builder and a path builder that must agree.

## How the model is built

Each pallet has three layers.

1. A state machine over values (`CourtMachine`, `GlobalDisputes`): the storage as a record, every call as a function
   from storage to a result, `Try`/`Apply` for one step and `Run` for a sequence of steps. A failing call leaves no
   trace, as calls are transactional. Steps of other pallets (balances, markets) are steps of the machine too.
2. Invariants of single steps and theorems over all runs (`CourtSafety`, `CourtLocks`, `CourtTiming`, `CourtVotes`,
   `CourtEligibility`, `AppealBonds`, `RegisteredDraws`; `GdLeader`, `GdLocks`, `GdFunds`, `GdTally`, `GdRewards`,
   `GdSchedule`), on top of theorems about single operations (`JurorPool`, `SectionDraw`, `Selection*`, `DrawTheorem`, `PoolCleanup`,
   `StrandedDelegators`, `Verdict`, `Reassignment`, `Inflation`, `AutoResolve`). Where a property fails, a condition on
   the state before the call says exactly when, and `FailingRuns`, `AppealRuns` and `Departures` give runs from the first
   block that reach the failure, built from the parts in `Scenarios`.
3. The imperative form: a class `Pallet` whose fields are the storage items (`CourtPallet`, `GlobalDisputesPallet`)
   and methods with loops (`CourtLoops`, `SectionDraw`, `Verdict`, `MerkleTree`), each proved to do what the function
   of layer 1 says, both on success and on every error.

Conventions: accounts, balances and blocks are natural numbers; saturating subtraction is `Minus`; slashing takes at
most the free balance (the existential deposit is 0); the random generators, the hash and the rounded shares are
arbitrary functions, so every theorem holds for all of them; the order in which a storage prefix is iterated is a
parameter of the step. Maps that the code keeps as B-trees are visited through `SortedSeq`.

## What the proofs found

Each finding is a run from the first block, for every sound configuration with room for it and every generator.

- The loop that removes recorded positions from the pool after a draw shifts later positions as it goes. Positions are
  recorded exactly for drawn sections of stranded delegators, none of whose jurors can be drawn (`NothingIsLostIff`).
  The loop removes exactly those iff at most one such section is drawn (`DrawCleanupIsExactIff`) and stays in range iff
  each position is below the length left when its turn comes (`DrawSucceedsIff`). In `DrawThrowsOutAJuror` a juror who
  delegates to nobody loses the place in the pool because a stranded delegator is drawn twice. In
  `DisputeGoesOutOfRange` there is exactly enough stake for a first round, and yet no generator can draw it. Order,
  uniqueness and per-item bounds survive any removal (`RemoveAllKeepsPool`), so the pool invariants hold for all runs.
- A drawn section of a stranded delegator raises the active lock without a draw behind it, and
  `reassign_court_stakes` releases the locks that `on_resolution` has already released. Over every run, locks equal
  what open courts can slash in all states iff every step is orderly (`LocksAreExactIff`): no draw of an open court hits
  a stranded delegator (`DisputeKeepsExactIff`, `AppealKeepsExactIff`; `DrawThrowsOutAJuror` ends where one did), and no
  lock is released twice to any effect (`ReassignKeepsExactIff`, `ReleaseKeepsExactIff`; `ReassignReleasesTwice` is a
  run with one juror and two disputes in which one is). The inequality active lock <= consumed stake <= stake holds
  throughout (`CourtSafety.EveryRunIsSafe`).
- `has_failed` takes the last possible appeal for one that needs a draw. It is right iff a draw would follow or the
  stake suffices anyway (`HasFailedForesees`). In `LastAppealRefutesFailure`, for any number of possible appeals and an
  appeal window that is not empty, the court is reported as failed while its last appeal succeeds.
- Branches that the code takes for unreachable are reached. Releasing or reassigning draws can meet an account that is
  not registered, and over every run it cannot iff no drawn account exits without an active lock
  (`DrawnStayRegisteredIff`, which also says when an amount at risk in an open court loses its owner). A juror drawn
  only through a delegator can do so while the court is open (`DrawnJurorLeavesOpenCourt`). While locks are exact such
  an account has nothing at risk (`UnlockMissesNoStake`), but after a second release a juror can leave an open court
  with a whole round at risk and nothing locked (`JurorLeavesAtRisk`). After resolution no lock holds a juror's
  stake, so that the juror can be gone, balance included, when stakes are reassigned (`SlashFindsNobody`); slashes come
  up short exactly where the balance does not cover the charges (`SlashesAreFullIff`).

## Model

| member | source | states |
|---|---|---|
| `MerkleTree.ParentIsSymmetric` | node/tnf-service/src/merkle_tree_utils.rs:73-87 | the hash of a sorted pair does not depend on which node is left |
| `MerkleTree.NextLevelAt` | node/tnf-service/src/merkle_tree_utils.rs:57-71 | the i-th node of the next level is the parent of nodes 2i and 2i+1, an odd last node moves up unchanged |
| `MerkleTree.ProcessNodesInPairs` | node/tnf-service/src/merkle_tree_utils.rs:57-71 | the pairing loop builds exactly the next level |
| `MerkleTree.ProcessLevel` | node/tnf-service/src/merkle_tree_utils.rs:45-55 | the recursion over levels terminates in exactly the root (nothing for no nodes) |
| `MerkleTree.GenerateTreeRoot` | node/tnf-service/src/merkle_tree_utils.rs:22-43 | succeeds iff the list is non-empty and then returns the root of the leaf hashes, otherwise the root error |
| `MerkleTree.RootIsDigestOfBalancedTree` | node/tnf-service/src/merkle_tree_utils.rs:22-71 | the root is the digest of a tree whose fringe is the leaf hashes in order and whose height is at most the logarithm of their number |
| `MerkleTree.ProcessPairForPath` | node/tnf-service/src/merkle_tree_utils.rs:145-156 | where the followed node is in the pair its sibling is pushed, folding the path still yields the followed node |
| `MerkleTree.ProcessNodesInPairsForPath` | node/tnf-service/src/merkle_tree_utils.rs:137-164 | same next level as the root builder; the followed node stays in the level and the path folds to it, duplicates included |
| `MerkleTree.ProcessLevelForPath` | node/tnf-service/src/merkle_tree_utils.rs:121-135 | ends with the root, and with the path folding to the root if the node was in the level |
| `MerkleTree.GenerateMerklePath` | node/tnf-service/src/merkle_tree_utils.rs:91-119 | fails exactly on an empty leaf or an empty list; for every leaf of the list the path folds from the leaf hash to the root that the root builder returns |
| `SortedSearch.Search` | pallets/court/src/lib.rs:1947-1963 | a hit is at the key; on an ascending list a miss separates smaller from larger keys |
| `JurorPool.LookupMatchesScan` | pallets/court/src/lib.rs:1947-1963 | looking a participant up by recorded stake and account finds it iff a linear scan by account would, at the same position |
| `JurorPool.VacateLeavesRoom` | pallets/court/src/lib.rs:1230-1274 | after taking out the caller or the weakest item the caller is absent, there is room, and consumed stake covers the active lock |
| `JurorPool.JoinNeverHitsUnreachableBranches` | pallets/court/src/lib.rs:1276-1362 | no join fails with twice-in-pool, pool-full, underflow, zero period or a removal out of range |
| `JurorPool.DelegateNeverHitsUnreachableBranches` | pallets/court/src/lib.rs:570-612 | neither does a delegation |
| `JurorPool.JoinKeepsRegistry` | pallets/court/src/lib.rs:1276-1362 | joining keeps the pool strictly sorted, unique, bounded and in agreement with participants and locks |
| `JurorPool.DelegationsAreRecorded` | pallets/court/src/lib.rs:570-612 | a successful delegation records exactly the given delegates, strictly ascending, without the delegator, each of them a juror of the pool at that time |
| `JurorPool.DelegateKeepsRegistry` | pallets/court/src/lib.rs:570-612 | delegating keeps all of that, and recorded delegations stay bounded, strictly ascending and free of the delegator |
| `JurorPool.PrepareExitKeepsRegistry` | pallets/court/src/lib.rs:623-650 | preparing to exit keeps it and takes the caller out of the pool |
| `JurorPool.ExitKeepsRegistry` | pallets/court/src/lib.rs:665-706 | exiting keeps it, with the currency lock mirroring what stays staked |
| `JurorPool.JoinThenLeaveRestores` | pallets/court/src/lib.rs:536-706 | joining, preparing to exit and exiting after a period restores pool, participants and locks |
| `JurorPool.JoinKeepsLocks` | pallets/court/src/lib.rs:1276-1362 | joining or delegating changes nobody's active lock |
| `JurorPool.LeavingKeepsLocks` | pallets/court/src/lib.rs:623-706 | neither does leaving |
| `SectionDraw.ShuffledIsPermutation` | pallets/court/src/lib.rs:1480-1513 | the explicit array after any number of swaps is a permutation of the section numbers |
| `SectionDraw.SwapKeepsRepresentation` | pallets/court/src/lib.rs:1493-1505 | one round on the sparse map does one swap of the explicit permutation |
| `SectionDraw.GetNRandomSectionEnds` | pallets/court/src/lib.rs:1480-1513 | the sparse-map loop returns exactly the ends of the first n entries of the shuffled permutation |
| `SectionDraw.DrawnEndsAreDistinctSections` | pallets/court/src/lib.rs:1480-1513 | for every generator: exactly n distinct multiples of the minimum stake, all between the minimum stake and max |
| `Selection.CumulativeEndsAscend` | pallets/court/src/lib.rs:1837-1862 | the cumulative ends with their zero-stake flags are sorted, as the binary search needs |
| `Selection.SlotIsTheOnlySection` | pallets/court/src/lib.rs:1752-1756 | a section end falls into the section of exactly one item with usable stake, and the binary search finds that item |
| `SelectionProofs.HitsAreBounded` | pallets/court/src/lib.rs:1752-1783 | no item is hit more often than its unconsumed stake holds the minimum stake |
| `SelectionProofs.DrawnSlotsAreAffordable` | pallets/court/src/lib.rs:1752-1783 | every hit finds a whole minimum stake left |
| `SelectionProofs.TrackStep` | pallets/court/src/lib.rs:1757-1783 | each hit adds exactly the minimum stake to consumed stake and active lock |
| `SelectionTotals.RoomForNewJuror` | pallets/court/src/lib.rs:1540-1550 | the bounded insert of a delegated juror never fails |
| `SelectionTotals.AddDelegatedJurorAdds` | pallets/court/src/lib.rs:1527-1553 | delegated stakes stay sorted and grow by exactly the amount |
| `SelectionTotals.AddToSelectionsGrows` | pallets/court/src/lib.rs:1560-1724 | one selected section adds one weight and one lock; jurors keep no delegated stakes, delegators no weight, at most two accounts are new |
| `SelectionTotals.SelectionIsAccounted` | pallets/court/src/lib.rs:1730-1793 | every drawn section is selected with one minimum stake or recorded as lost, and nothing else is charged |
| `StrandedDelegators.LostAreTheStranded` | pallets/court/src/lib.rs:1625-1680 | the recorded positions are exactly the drawn delegators none of whose jurors is in the pool as a juror, in drawing order |
| `StrandedDelegators.LostIsStrandedCount` | pallets/court/src/lib.rs:1625-1680 | a draw loses as many sections as it draws from such delegators |
| `StrandedDelegators.LockAfterDraw` | pallets/court/src/lib.rs:1757-1783 | a draw raises every active lock by exactly the minimum stake per drawn section of the account, lost ones included |
| `StrandedDelegators.NothingIsLostIff` | pallets/court/src/lib.rs:1625-1680 | a draw loses no section iff it hits no such delegator |
| `StrandedDelegators.DrawSucceedsIff` | pallets/court/src/lib.rs:1789-1791 | with enough stake a draw succeeds iff those removals, each one place short per earlier one, stay within the pool; its only error is the range error |
| `StrandedDelegators.NobodyStrandedDrawSucceeds` | pallets/court/src/lib.rs:1837-1880 | with enough stake and no such delegator every draw succeeds and loses nothing, whatever the generator |
| `PoolCleanup.RemoveAllInRange` | pallets/court/src/lib.rs:1789-1791 | the removal loop stays in range iff each index is below the length left at its turn |
| `PoolCleanup.RemoveAllSurvivors` | pallets/court/src/lib.rs:1789-1791 | ascending indices remove the items at index plus number of earlier removals |
| `PoolCleanup.CleanupIsExactIffAtMostOne` | pallets/court/src/lib.rs:1789-1791 | it removes exactly the recorded items iff there is at most one |
| `PoolCleanup.RemoveAllKeepsPool` | pallets/court/src/lib.rs:1789-1791 | whatever is removed, order, uniqueness, bound and agreement with participants survive |
| `DrawTheorem.ChooseMultipleWeightedGuarantees` | pallets/court/src/lib.rs:1837-1880 | for every registry and generator: registry invariants kept, total weight = requested minus lost, total slashable = minimum stake times that, sorted draws, at most twice the weight, exactly the registered delegators drawn as such, without weight and with matching delegated stakes, locks exact iff nothing lost |
| `FailingRuns.DisputeGoesOutOfRange` | pallets/court/src/lib.rs:1789-1791 | run from genesis: enough stake for a first round, and every generator gives the range error |
| `FailingRuns.DrawThrowsOutAJuror` | pallets/court/src/lib.rs:1789-1791 | run from genesis: opening a court takes a registered juror who is no delegator and not leaving out of the pool, and locks are no longer exact |
| `StrandedDelegators.DrawCleanupIsExactIff` | pallets/court/src/lib.rs:1789-1791 | the clean-up of a draw takes out exactly the stranded delegators it drew iff it drew at most one section of them |
| `CourtTypes.NecessaryDrawsWeightGrows` | pallets/court/src/lib.rs:2064-2071 | later rounds ask for at least as many draws |
| `CourtSafety.NothingIsTruncated` | pallets/court/src/lib.rs:1910-1943 | with the configured bound no draw is truncated |
| `CourtLoops.ComputeSections` | pallets/court/src/lib.rs:1842-1863 | the running totals are the cumulative section ends |
| `CourtLoops.GetSelections` | pallets/court/src/lib.rs:1730-1787 | the selection loop computes the draft of all positions |
| `CourtLoops.RemoveRecorded` | pallets/court/src/lib.rs:1789-1791 | the removal loop |
| `CourtLoops.ComputeChoice` | pallets/court/src/lib.rs:1837-1880 | the whole draw, imperative form |
| `CourtLoops.ComputeUnlocked` | pallets/court/src/lib.rs:1884-1901 | the unlock loop |
| `CourtLoops.HandleAllVotes` | pallets/court/src/lib.rs:1075-1149 | the loop over draws: release, slash the tardy, note votes and delegations |
| `CourtLoops.SplitJurors` | pallets/court/src/lib.rs:2096-2132 | the loop over jurors: who is slashed, who wins with what risk |
| `CourtLoops.PayWinners` | pallets/court/src/lib.rs:2142-2152 | the pay-out loop with clamped splits |
| `CourtLoops.ComputeReassignment` | pallets/court/src/lib.rs:1052-1159 | the whole reassignment, imperative form |
| `CourtLoops.ComputeInflation` | pallets/court/src/lib.rs:1365-1473 | the block hook's inflation, imperative form |
| `Verdict.GetWinner` | pallets/court/src/lib.rs:2162-2206 | the item that leads alone, the last winner on a tie for the maximum, None when nothing was revealed |
| `Verdict.TallyScores` | pallets/court/src/lib.rs:2166-2176 | the score map holds the revealed weight of exactly the revealed items |
| `Verdict.BestTwoDecide` | pallets/court/src/lib.rs:2178-2205 | equal best scores mean nobody leads, different ones that the best leads |
| `Verdict.ComputeWinner` | pallets/court/src/lib.rs:2162-2206 | the best/second-best scan returns that winner |
| `Verdict.WinnerIgnoresOrder` | pallets/court/src/lib.rs:2162-2206 | the winner depends only on the multiset of draws |
| `CourtMachine.ResolvesOnTheVerdict` | pallets/court/src/lib.rs:2210-2228 | resolution closes on the leader, on a tie on the item last appealed against, otherwise on the oracle's report |
| `Reassignment.ReassignConserves` | pallets/court/src/lib.rs:1052-1159 | the sum of all free balances is unchanged, whatever the rounding of shares |
| `Reassignment.SettleEmptiesPot` | pallets/court/src/lib.rs:2135-2157 | the reward pot ends empty unless it is itself a winner or the treasury |
| `Reassignment.EveryDrawIsChargedOnce` | pallets/court/src/lib.rs:1052-1159 | for any set of accounts: tardy slashes plus losing slashes plus winners' risk equal the slashable amounts of their draws |
| `Reassignment.TardyPay` | pallets/court/src/lib.rs:1066-1095 | after any number of draws a tardy juror has paid its slashable amount as far as it can, others are untouched |
| `Reassignment.LosersPayTheirSlashable` | pallets/court/src/lib.rs:1052-1159 | nobody loses more than its slashable amount; non-winners lose exactly that, as far as they can |
| `Reassignment.SlashesAreFullIff` | pallets/court/src/lib.rs:1066-1095 | no slash of an account comes up short iff its balance covers its tardy and losing charges together |
| `Departures.SlashFindsNobody` | pallets/court/src/lib.rs:1131-1147 | run from genesis: the only juror of a closed court is gone when stakes are reassigned; the slash comes up short and nobody, pot and treasury included, gets anything |
| `Reassignment.RewardPaysShares` | pallets/court/src/lib.rs:2142-2152 | each winning entry gets its share, or what the shares before it leave of the incentives; the rest is kept |
| `Reassignment.FittingSharesArePaid` | pallets/court/src/lib.rs:2142-2152 | shares that fit the incentives are paid in full |
| `Reassignment.WinnersGetTheirShares` | pallets/court/src/lib.rs:2074-2157 | final balance of every account but the pot: minus tardy and losing charges, plus its shares as far as the shares before them leave something; the treasury gets the rest |
| `CourtSafety.ReassignUnlocks` | pallets/court/src/lib.rs:1131-1147 | reassigning releases the same locks as an unlock of the draws |
| `Inflation.MintConserves` | pallets/court/src/lib.rs:1444-1459 | each split leaves issuance minus rest in step with balances |
| `Inflation.InflationIsBounded` | pallets/court/src/lib.rs:1365-1473 | issuance grows by exactly what is paid, at most the period mint, at most the yearly amount, only at period starts |
| `Inflation.OnlyEligibleStakeIsPaid` | pallets/court/src/lib.rs:1427-1459 | nobody loses, only accounts with eligible stake gain |
| `Inflation.SharesFit` | pallets/court/src/lib.rs:1444-1456 | shares that round down never exceed the mint |
| `Inflation.EveryShareIsPaid` | pallets/court/src/lib.rs:1444-1459 | with such shares every existing account gets exactly its share |
| `CourtEligibility.EligibilityHolds` | pallets/court/src/lib.rs:1194-1210 | over all runs a pool item's eligible stake in the running period is the least stake its account held since the period began |
| `CourtEligibility.EligibleStakeIsHeldThroughout` | pallets/court/src/lib.rs:1427-1433 | at a period start the stake paid for is the stake held in every snapshot of the period just ended |
| `CourtSafety.UnlockAllReleases` | pallets/court/src/lib.rs:1884-1901 | unlocking lowers every active lock by the account's slashable amount |
| `CourtSafety.StepKeepsStore` | pallets/court/src/lib.rs:536-1159 | every call and hook keeps the invariant of the storage |
| `CourtSafety.EveryRunIsSafe` | pallets/court/src/lib.rs:490-2592 | in every reachable state: sorted unique bounded pool in agreement with participants, active lock <= consumed <= stake for pool items, active lock <= stake for all, currency lock = stake, well-formed draws |
| `CourtSafety.GenesisIsSafe` | pallets/court/src/lib.rs:490-500 | the first block satisfies it |
| `CourtLocks.LocksAreExactIff` | pallets/court/src/lib.rs:1884-1901 | over every run: in all its states an active lock is the sum of slashable amounts over draws of open courts, 0 for unregistered accounts, iff all its steps are orderly, a condition on the state before each step |
| `CourtLocks.StepKeepsExactIff` | pallets/court/src/lib.rs:536-1159 | a single step of any kind keeps it iff it is orderly |
| `CourtLocks.ReleaseKeepsExactIff` | pallets/court/src/lib.rs:2359-2592 | resolving, clearing or globally disputing keeps it iff the court is open or nobody has both something to release there and a lock |
| `CourtLocks.AppealKeepsExactIff` | pallets/court/src/lib.rs:962-1032 | an appeal keeps it iff it is the last possible one, or the court is open and its draw hits no stranded delegator, or the court is closed and the draw takes from everybody what the old draws release |
| `CourtLocks.DisputeKeepsExactIff` | pallets/court/src/lib.rs:2312-2357 | opening a court keeps it iff the draw hits no stranded delegator |
| `CourtLocks.ReassignKeepsExactIff` | pallets/court/src/lib.rs:1130-1147 | reassigning keeps it iff nobody with anything at risk in that court is locked by open ones |
| `FailingRuns.ReassignReleasesTwice` | pallets/court/src/lib.rs:1130-1147 | run from genesis with one juror and two disputes: locks are exact until the first, resolved court is reassigned, and then no longer |
| `CourtLocks.UnlockMissesNoStake` | pallets/court/src/lib.rs:1884-1901 | while locks are exact, a drawn account of an open court that is not registered has nothing at risk there |
| `Departures.JurorLeavesAtRisk` | pallets/court/src/lib.rs:1131-1147 | run from genesis: after a second release a juror leaves for good with a whole round at risk in an open court and nothing locked |
| `RegisteredDraws.StepKeepsRegisteredIff` | pallets/court/src/lib.rs:665-706 | a step keeps all drawn accounts registered iff it is not the exit, after a full period, of a drawn account without an active lock; likewise for the accounts with anything at risk in open courts |
| `RegisteredDraws.DrawnStayRegisteredIff` | pallets/court/src/lib.rs:1884-1901 | over every run: no state is one in which a release or a reassignment of draws would meet an unregistered account iff no step is such an exit; likewise for amounts at risk in open courts |
| `RegisteredDraws.DrawnStayRegisteredFromGenesis` | pallets/court/src/lib.rs:1131-1147 | so for every run from the first block |
| `Departures.DrawnJurorLeavesOpenCourt` | pallets/court/src/lib.rs:1884-1901 | run from genesis: a juror drawn only through a delegator leaves for good while the court is open |
| `CourtLocks.GenesisIsExact` | pallets/court/src/lib.rs:490-500 | locks are exact at genesis |
| `CourtTiming.WindowsAreDisjoint` | pallets/court/src/types.rs:220-238 | the blocks of a round are divided among voting, revealing and appealing: no block allows two, every block strictly between start and end allows one, none outside allows any, each for the configured number of blocks |
| `CourtTiming.RoundsMoveForward` | pallets/court/src/lib.rs:986-1022 | over all runs a new round starts after the old aggregation and ends strictly later; every appeal but the last starts one |
| `CourtTiming.RescheduleMoves` | pallets/court/src/lib.rs:1003-1022 | an appeal moves the market to the new resolution block and nothing else |
| `CourtTiming.UnscheduleRemoves` | pallets/court/src/lib.rs:1016-1022 | the last appeal takes it off the schedule |
| `AutoResolve.RemoveCounts` | pallets/court/src/mock.rs:97-123 | removal by swap takes exactly one entry of the market |
| `AutoResolve.AddSchedulesOnce` | pallets/court/src/mock.rs:97-109 | adding a market that is not scheduled schedules it once, at that block only |
| `AutoResolve.RemoveUnschedules` | pallets/court/src/mock.rs:115-123 | removing a market scheduled once leaves it unscheduled |
| `CourtTiming.ScheduleFollowsRounds` | pallets/court/src/lib.rs:986-1022 | over timely runs an open court's market is scheduled exactly once, at its current appeal end, until the final appeal |
| `CourtTiming.GenesisIsOnTime` | pallets/court/src/lib.rs:490-500 | the request block is ahead of the clock from the first block on |
| `CourtTiming.GenesisIsScheduled` | pallets/court/src/lib.rs:490-500 | the empty schedule is in step with no courts |
| `CourtFrames.VoteStepFrame` | pallets/court/src/lib.rs:722-938 | each voting call changes one vote of one draw, in its window, from an allowed state |
| `CourtVotes.StepEvolves` | pallets/court/src/lib.rs:722-938 | a step that does not draw anew moves each vote at most one allowed step, in its window, and changes nothing else of a draw |
| `CourtVotes.DrawsEvolve` | pallets/court/src/lib.rs:722-938 | between two draws votes only move Drawn, Secret, then Denounced or Revealed; participant, weight and slashable stay; delegated votes never change |
| `CourtVotes.OpenedVotesMatchCommitments` | pallets/court/src/lib.rs:2231-2264 | in every reachable state revealed and denounced triples hash to the last commitment cast since the draw |
| `CourtVotes.EveryDrawIsFound` | pallets/court/src/lib.rs:736-741 | the search by account finds every drawn account |
| `CourtVotes.DrawnJurorCanCast` | pallets/court/src/lib.rs:722-757 | a drawn juror can cast and overwrite a vote in the window |
| `CourtVotes.CommitThenReveal` | pallets/court/src/lib.rs:873-926 | over any run after the cast without a new draw and in which nobody touches that juror's vote, revealing succeeds iff the reveal is admissible and the triple has the committed hash |
| `CourtMachine.HasFailedForesees` | pallets/court/src/lib.rs:2448-2510 | where an appeal passes its checks: the verdict of failure agrees with the appeal failing for lack of stake iff a draw would follow or the stake suffices; the last appeal always succeeds |
| `AppealRuns.LastAppealRefutesFailure` | pallets/court/src/lib.rs:2448-2510 | run from genesis, for any number of possible appeals: all but the last are made, the court is reported as failed, and its last appeal succeeds |
| `CourtMachine.ContestedOutcomesAreHandedOver` | pallets/court/src/lib.rs:2539-2558 | an outcome is handed to the global dispute iff some appeal was against it and it is not the oracle's; treasury-owned, without votes |
| `CourtLoops.CollectItems` | pallets/court/src/lib.rs:2539-2558 | the loop that collects that list |
| `AppealBonds.BondsAreSettled` | pallets/court/src/lib.rs:2397-2420 | if all bonds are reserved nothing is missing: reserves shrink by exactly the bonds, justified appeals get theirs back, the others are what is slashed |
| `AppealBonds.ExchangeSettlesBonds` | pallets/court/src/lib.rs:2386-2428 | the same for a market's court that is settled for the first time |
| `AppealBonds.AppealKeepsBacked` | pallets/court/src/lib.rs:962-1032 | an appeal reserves exactly the bond it records |
| `AppealBonds.BondsStayBacked` | pallets/court/src/lib.rs:2386-2428 | over all runs that settle no court twice, reserves cover all bonds of unsettled courts |
| `AppealBonds.GenesisIsBacked` | pallets/court/src/lib.rs:490-500 | no bonds at genesis |
| `CourtLoops.ComputeBonds` | pallets/court/src/lib.rs:2397-2420 | the loop over appeals, with its error |
| `CourtPallet.Pallet.OnInitialize` | pallets/court/src/lib.rs:490-500 | block hook: inflation, then the next request block; the storage invariant survives and issuance grows by exactly what balances gain |
| `CourtPallet.Pallet.JoinCourt` | pallets/court/src/lib.rs:536-548 | the new storage is the machine's, each error is the machine's and leaves the storage untouched, and the storage invariant survives (so for every method of the class below); no error of an unreachable branch |
| `CourtPallet.Pallet.Delegate` | pallets/court/src/lib.rs:570-612 | all checks on the delegates in the code's order, then the join with the sorted list; no error of an unreachable branch |
| `CourtPallet.Pallet.PrepareExitCourt` | pallets/court/src/lib.rs:623-650 | notes the block, once, and the caller is not in the pool afterwards |
| `CourtPallet.Pallet.ExitCourt` | pallets/court/src/lib.rs:665-706 | only a full period after preparing; what stays staked and currency-locked is the active lock, and the account stays registered iff that is positive |
| `CourtPallet.Pallet.CastVote` | pallets/court/src/lib.rs:722-766 | replaces the vote by the commitment iff the court is in its vote window and the caller is drawn with a vote that is neither opened nor delegated |
| `CourtPallet.Pallet.DenounceVote` | pallets/court/src/lib.rs:789-854 | opens another's vote iff it is admissible in the vote window and the secret is the hash of the triple |
| `CourtPallet.Pallet.RevealVote` | pallets/court/src/lib.rs:873-938 | opens the caller's own vote iff it is admissible in the aggregation window and the secret is the hash of the triple |
| `CourtPallet.Pallet.Appeal` | pallets/court/src/lib.rs:962-1032 | records the appeal and reserves the bond; below the last appeal also releases the old draws, moves the schedule and leaves fresh draws with one minimum stake at risk per weight, no more than asked for |
| `CourtPallet.Pallet.ReassignCourtStakes` | pallets/court/src/lib.rs:1052-1159 | for a closed court only, once: balances and locks of the reassignment, draws forgotten; the sum of balances is kept and nobody but the pot loses more than its draws put at risk |
| `CourtPallet.Pallet.OnDispute` | pallets/court/src/lib.rs:2312-2357 | opens a court under a fresh identifier with round, schedule entry and fresh draws with one minimum stake at risk per weight |
| `CourtPallet.Pallet.OnResolution` | pallets/court/src/lib.rs:2359-2384 | closes the court on its verdict and lowers every lock by what its draws put at risk |
| `CourtPallet.Pallet.Exchange` | pallets/court/src/lib.rs:2386-2428 | settles the bonds of the market's court and returns what was slashed; balances, reserves and that add up to what there was |
| `CourtPallet.Pallet.OnGlobalDispute` | pallets/court/src/lib.rs:2512-2572 | forgets the court and lowers every lock by what its draws put at risk, or does nothing if there never was one, and returns the contested outcomes |
| `CourtPallet.Pallet.Clear` | pallets/court/src/lib.rs:2574-2592 | forgets the court and lowers every lock by what its draws put at risk |
| `CourtPallet.Pallet.HasFailed` | pallets/court/src/lib.rs:2448-2510 | no appeal left, or an appeal possible without stake for its draw, or no court and not enough stake while disputes are possible; with every error case |
| `CourtPallet.Pallet.LatestWinner` | pallets/court/src/lib.rs:2210-2228 | the item the market would resolve on |
| `GdLeader.PutKeepsLeader` | pallets/global-disputes/src/lib.rs:672-695 | writing an outcome whose sum has not shrunk keeps the cached winner a true maximum |
| `GdLeader.StepKeepsLeader` | pallets/global-disputes/src/lib.rs:267-873 | every call keeps it |
| `GdLeader.LeaderIsAlwaysRight` | pallets/global-disputes/src/lib.rs:267-873 | over all proper runs the cached winner of an active dispute is stored and its cached sum is the maximum |
| `GdLeader.DeterminedWinnerIsArgmax` | pallets/global-disputes/src/lib.rs:771-784 | the winner determined after any proper run is a stored outcome with the largest sum |
| `GdLocks.AddLockAdds` | pallets/global-disputes/src/lib.rs:533-558 | one vote keeps the lock list sorted, adds exactly its amount for its market, and the new maximum covers the market's total |
| `GdLocks.RetainedOrder` | pallets/global-disputes/src/lib.rs:609-640 | unlocking keeps order and only locks of active disputes |
| `GdLocks.RetainedAmounts` | pallets/global-disputes/src/lib.rs:609-640 | it keeps all of those |
| `GdLocks.CurrencyLockIsLargestVote` | pallets/global-disputes/src/lib.rs:602-664 | over all proper runs every voter's list is strictly sorted by market and the currency lock is its largest amount |
| `GdFunds.RefundsAreExact` | pallets/global-disputes/src/lib.rs:330-370 | a batch of refunds never fails for lack of funds, pays each owner exactly the fees of the outcomes it drops, and drops exactly its batch |
| `GdFunds.StepKeepsFunds` | pallets/global-disputes/src/lib.rs:267-873 | every call keeps the reward account equal to the fees of the stored paid outcomes until the dispute is finished |
| `GdFunds.EveryRunIsSafe` | pallets/global-disputes/src/lib.rs:267-873 | so do all proper runs, together with leader and locks |
| `GdFunds.GenesisIsSafe` | pallets/global-disputes/src/lib.rs:267-873 | the empty state satisfies all three |
| `GdFunds.RefundProgress` | pallets/global-disputes/src/lib.rs:330-370 | a call drops min(limit, number of outcomes) outcomes |
| `GdFunds.RefundsReturnEveryFee` | pallets/global-disputes/src/lib.rs:330-370 | after enough calls nothing is stored, everybody has got back exactly the fees paid, and the account is empty |
| `GdTally.StepKeepsTally` | pallets/global-disputes/src/lib.rs:267-873 | every call keeps the tally below |
| `GdTally.TallyIsExact` | pallets/global-disputes/src/lib.rs:501-577 | while a dispute is active its sums total the initial amounts, the fees of stored outcomes and all votes locked for it |
| `GdTally.GenesisIsTallied` | pallets/global-disputes/src/lib.rs:501-577 | the empty state is tallied |
| `GdRewards.GenesisHasNoAwards` | pallets/global-disputes/src/lib.rs:389-480 | the empty state has nothing awarded |
| `GdRewards.PurgeKeepsWinner` | pallets/global-disputes/src/lib.rs:389-431 | however many batches run, the winning record is either still stored or saved in the dispute's info |
| `GdRewards.AwardsAreKept` | pallets/global-disputes/src/lib.rs:389-480 | over all proper runs that record is the one that won when the winner was determined, and the account still holds the fees of that moment until the first reward |
| `GdRewards.RewardPays` | pallets/global-disputes/src/lib.rs:697-755 | a paid owner gets everything; shared owners get floor(reward / n) per entry and exactly reward mod n stays |
| `GdRewards.RewardsGoToTheWinner` | pallets/global-disputes/src/lib.rs:447-480 | a reward that succeeds after any proper run pays exactly the possession of the outcome that won |
| `GdRewards.RewardPaysOnce` | pallets/global-disputes/src/lib.rs:447-480 | a second reward fails for lack of funds or changes nothing |
| `GdRewards.PurgesMakeWayForReward` | pallets/global-disputes/src/lib.rs:389-480 | enough purges empty a finished dispute; then the reward is paid iff the account holds anything |
| `GdSchedule.ActiveDisputesAreScheduled` | pallets/global-disputes/src/lib.rs:799-873 | over all timely runs every active dispute is scheduled exactly once, at the end of its voting |
| `GdSchedule.DestroyUnschedules` | pallets/global-disputes/src/lib.rs:859-873 | destroying an active dispute takes its market off the schedule |
| `GdSchedule.GenesisIsScheduled` | pallets/global-disputes/src/lib.rs:799-873 | the empty state satisfies it |
| `GlobalDisputesPallet.RetainLocks` | pallets/global-disputes/src/lib.rs:614-640 | the retain loop keeps locks of active disputes and their maximum |
| `GlobalDisputesPallet.Pallet.StartGlobalDispute` | pallets/global-disputes/src/lib.rs:799-857 | all initial items go in one by one or the call leaves no trace; then the dispute is active with its two periods, scheduled for resolution unless the schedule is full, and led by an outcome with the largest sum; leader, lock and fund invariants survive (so for every method of the class below) |
| `GlobalDisputesPallet.Pallet.AddVoteOutcome` | pallets/global-disputes/src/lib.rs:267-312 | in the first period only, a new matching outcome enters, exactly its fee moves from the caller to the reward account, and the leader still has the largest sum |
| `GlobalDisputesPallet.Pallet.VoteOnOutcome` | pallets/global-disputes/src/lib.rs:501-577 | in the second period only; the voter's lock for that market grows by the amount and no other does, the currency lock is the largest of them, and the leader has the largest sum |
| `GlobalDisputesPallet.Pallet.UnlockVoteBalance` | pallets/global-disputes/src/lib.rs:602-664 | exactly the locks of active disputes are left, with their amounts, and the currency lock is the largest |
| `GlobalDisputesPallet.Pallet.DetermineVotingWinner` | pallets/global-disputes/src/lib.rs:771-784 | finishes the dispute, whatever its status was, and returns the cached winner; for an active dispute that is a stored outcome with the largest sum; None without a dispute |
| `GlobalDisputesPallet.Pallet.DestroyGlobalDispute` | pallets/global-disputes/src/lib.rs:859-873 | only an active dispute becomes destroyed, and its schedule entry goes |
| `GlobalDisputesPallet.Pallet.PurgeOutcomes` | pallets/global-disputes/src/lib.rs:389-431 | drains at most the limit of outcomes; whatever record the winner had, stored or saved, it still has |
| `GlobalDisputesPallet.Pallet.RewardOutcomeOwner` | pallets/global-disputes/src/lib.rs:447-480 | only after everything is purged, pays each owner its share of the account's balance, by the saved possession |
| `GlobalDisputesPallet.Pallet.RewardShared` | pallets/global-disputes/src/lib.rs:697-737 | the pay-out loop with its remainder |
| `GlobalDisputesPallet.Pallet.RefundVoteFees` | pallets/global-disputes/src/lib.rs:330-370 | for a destroyed dispute only, refunds exactly the fees of the outcomes it drops, at most the limit |

## Left out

- ScheduleFollowsRounds: assumes that markets are disputed only while unscheduled and without an open court, and that only open courts are appealed, which the prediction-markets pallet arranges.
- ActiveDisputesAreScheduled: assumes that disputes are started for unscheduled markets and that other pallets leave the entries of active disputes alone.
- LeaderIsAlwaysRight: like all theorems over proper runs of global disputes, assumes that nobody but the pallet moves funds of a reward account, that initial owners are users, and that a winner is determined only for an active dispute.
- RoundsMoveForward: assumes a positive request interval; so do the other run theorems through the configuration predicate `Sound`.
- EveryShareIsPaid: is about shares that round down; the conversion of a share to Perquintill is an arbitrary function.
- Bonds of courts removed by a global dispute or a clear: they stay reserved, what happens to them is not part of this model.
- BondsStayBacked: assumes that no court's bonds are settled twice, which the prediction-markets pallet arranges.
- `get_auto_resolve` and the bound that `set_inflation` checks.
- Aliasing: storage items are fields of one object, records inside them are values.
- Saturation and overflow at the upper end of the integer types, including the next court identifier.
- A removal out of range in the clean-up loop panics; the model lets the call fail.
- Locks of other pallets on the same account, the existential deposit, and reserves other than appeal bonds.
- The random generator's seed and nonce, the hash functions' internals, Perquintill arithmetic.
- Events, weights, origins, storage encoding, benchmarks, migrations.
- The node, its services and RPC, the asset registry, authorized disputes, configuration, routing, markets and trading pallets.
