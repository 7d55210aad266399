# LunaX liquid staking: the contract and what it guarantees

This project models the LunaX liquid-staking contract as a state machine, and proves what it promises to the people
who hold its token. Users deposit Luna and receive tokens; the contract delegates the Luna over a pool of validators.
To leave, users queue tokens into the current undelegation batch. A batch is closed at the exchange rate of that moment,
its tokens are burnt and its stake unbonds for three weeks. What arrives is reconciled, ten batches at a time, and users
withdraw their share. Three ledgers have to stay together through all of this, under floor arithmetic on 18-digit
decimals: the tracked stake and the delegations on the chain, the tokens of each user and of each batch, the reconciled
funds and the claims on them.

## How it is built

- `Results`, `Decimals`, `Sums`, `Storage`: errors, decimals over 128-bit amounts with every overflow written out,
  balance sheets, the storage items and the chain.
- `Selection`, `Handlers`, `RewardContract`: each operation as a function from storage and chain to new storage and
  messages, or to an error. They are the specification.
- `Selector`, `StakingContract`: the same operations as the source writes them, with storage fields that are loaded and
  saved, loops and early returns. Every method is proved to do what its specification says; the theorems are about the
  specification, so they hold of the methods.
- `Messages`, `Machine`: the chain executes the messages of a call in order; an error anywhere undoes the transaction.
  A run is a sequence of transactions and of other events: time passes, delegations and unbonding stake are slashed,
  unbonded stake is paid out, anybody transfers or burns what they own, validators come and go.
- `Claims`, `Effects`, `Ledger`, `LedgerSteps`, `Flows`, `Solvency`, `Frozen`, `Withdrawals`, `Dust`, `Cooldown`: the
  undelegation ledger, in all runs, slashing included.
- `Pool`, `PoolRuns`, `SelectionProofs`, `Balancing`: the validator pool and how validators are chosen.
- `Rates`, `SlashFreeRates`, `NoHaircut`, `SlashFree`, `RoundTrip`: the exchange rate, and what holds in runs without
  slashing. A slash-free run may contain every call and event except slashing; the chain pays out the stake of a batch
  no later than its estimated release.
- `SlashingCheck`, `Deposits`, `Reinvestments`, `Queueing`, `Undelegations`, `Settlements`, `PoolChanges`,
  `Administration`: for each call, exactly when its transaction commits, in terms of what a caller can look up, and the
  whole state it leaves behind, account by account and field by field. These statements name none of the handlers.
- `Progress`, `Liveness`: when reconciling makes progress.
- `Witnesses`: two runs from instantiation in which the contract breaks what its comments expect of it.

## Where the code and its comments differ

- The comment at `contracts/staking/src/contract.rs:646` says that the exchange rate is never zero. It is zero exactly
  when the supply exceeds a positive stake 10^18-fold (`Rates.ZeroRateExactly`). Two deposits and two slashes lead there
  (`Witnesses.ZeroRateIsReachable`), and then no deposit goes through (`Deposits.ZeroRateStopsDeposits`). In slash-free
  runs the rate is never below one (`Liveness.RunKeepsRatesAtLeastOne`).
- Reconciling does not always make progress. A window of released batches without stake returns early
  (`contracts/staking/src/contract.rs:997-999`), and a window with stake for which nothing has arrived is refused
  (`contracts/staking/src/contract.rs:1009-1011`). `Progress.ReconcileAdvancesExactly` says for every call when it
  advances. Ten batches without stake in a row block reconciling for good (`Progress.PageWithoutStakeBlocks`), and a
  run after a slash leads there (`Witnesses.StuckPageIsReachable`). Without slashing, and unless it is paused or
  a number overflows, reconciling advances whenever a batch is released (`Liveness.ReconcileAdvancesWithoutSlashing`).
- The comment on `decimal_division` (`packages/stader-utils/src/coin_utils.rs:156`) says that it multiplies. It divides,
  and is modelled so.

## Assumptions

- Errors, failed `unwrap`s, overflows and failed messages all undo the whole transaction.
- Queries to the chain and to the token contract do not fail. The token contract is configured, and the staking contract
  is its only minter; it refuses empty transfers.
- The accounts of the two contracts act only through the messages they emit. Addresses are opaque and ordered.
- Claiming airdrops makes the staking contract send tokens of a registered airdrop contract out of its own account
  (`contracts/staking/src/contract.rs:1133-1186`). Custody of the queued tokens therefore also assumes that the registry
  never names the contract's own liquid token as an airdrop token.
- Each undelegation message carries the number of its batch, and a world records the tokens withdrawn from each batch.
  Both are bookkeeping of the model: no operation reads them.

## Model

| member | source | states |
|---|---|---|
| SlashingCheck.CheckSlashingExactly | contracts/staking/src/contract.rs:513-553 | the check succeeds if and only if nothing overflows; every pool member is set to its delegation with its shortfall recorded, total and rate are those of the delegations (rate floor(10^18 · total / supply), or one), and nothing else changes |
| Deposits.DepositingExactly | contracts/staking/src/contract.rs:557-628 | a deposit transaction commits if and only if: not paused, exactly one vault coin that the sender holds, within bounds, an active member, no overflow. Then for every account: the sender pays the deposit and gets all minted tokens, the fee contract gets floor(deposit · fee / 10^18), nobody else anything, and the rest is delegated to one chosen member |
| Deposits.DepositChoice | contracts/staking/src/helpers.rs:85-120 | the chosen member is the first active one in pool order without a delegation, or else the least by delegation and then address |
| Reinvestments.ReinvestingExactly | contracts/staking/src/contract.rs:704-773 | a reinvestment commits if and only if: not paused, cooldown over or manager, the two contracts configured for each other, an active member, no overflow. Then the reward balance is gone, fee to the fee contract and the rest delegated; the stored rate is floor(10^18 · new stake / supply) or one; the cooldown restarts now |
| Queueing.QueueingExactly | contracts/staking/src/contract.rs:804-858 | queueing commits if and only if: not paused, 0 < n ≤ the tokens held, the check passes, and record and batch have room, however much is queued already. Then record and batch have n more and the contract holds the n tokens |
| Undelegations.UndelegatingExactly | contracts/staking/src/contract.rs:860-958 | an undelegation commits if and only if: not paused, cooldown over or manager, tokens queued, and their worth ≤ the stake of active members. Then distinct active members lose positive amounts summing to it, largest delegation first, all but the last drained, nobody left out holding more, and from as few members as any set that holds it; one message for each and the burn; batch closed, next opened |
| Undelegations.PlanExactly | contracts/staking/src/helpers.rs:123-152 | the same of the plan alone, ties ordered by address |
| Settlements.ReconcilingExactly | contracts/staking/src/contract.rs:962-1040 | a reconciliation commits if and only if it is not paused and, when the window has stake, something has arrived and nothing overflows. Then each batch of the window, and no other, is reconciled at ratio arrived/expected, at most one, and as much is set aside |
| Settlements.WithdrawingExactly | contracts/staking/src/contract.rs:1043-1130 | a withdrawal commits if and only if it is not paused and the user has a live record in a reconciled batch; then the balance of every account and the whole storage are fixed |
| PoolChanges.AddingExactly | contracts/staking/src/contract.rs:358-387 | only the manager adds a validator, only a known one and only once; it joins at the end with nothing tracked |
| PoolChanges.RebalancingExactly | contracts/staking/src/contract.rs:450-511 | a rebalancing commits if and only if: manager, n > 0, two different members, n ≤ the delegation of the first, which is not redelegating, no overflow. Then the delegation and the tracked stake of the first fall by n, those of the second rise by n, and no other changes |
| PoolChanges.RemovingExactly | contracts/staking/src/contract.rs:390-446 | a removal commits if and only if: manager, two different members, the first not redelegating, no overflow. Then all of its stake arrives at the second, it leaves the pool with the order of the others kept, and no other delegation changes |
| Administration.UpdatingConfigExactly | contracts/staking/src/contract.rs:276-355 | only the manager's update within all bounds is accepted; every requested value is then in its own field and every other field as before |
| Administration.UpdatingFlagsExactly | contracts/staking/src/contract.rs:238-274 | only the manager's update is accepted; every requested flag is then in its own field and every other flag as before |
| Administration.InstantiatingExactly | contracts/staking/src/contract.rs:44-156 | a contract starts if and only if its configuration is within the bounds and its cooldowns can have started; then every field of its storage is as stated |
| Administration.RedeemingExactly | contracts/staking/src/contract.rs:656-702 | commits if and only if not paused and the check passes; on the storage it is the check and nothing else |
| Administration.PausedCallsAreRefused | contracts/staking/src/contract.rs:557-562 | a call whose operation is paused is answered with that error, whatever else is wrong with it |
| Administration.OthersAreTurnedAway | contracts/staking/src/helpers.rs:49-82 | a call reserved for the manager is answered to anybody else as unauthorized, before anything is looked at |
| Solvency.ReachableIsSolvent | contracts/staking/src/contract.rs:962-1088 | in every state reachable from instantiation, whatever is slashed or donated: claims of all live records in reconciled batches ≤ reconciled funds ≤ bank balance |
| Solvency.RunIsSolvent | contracts/staking/src/contract.rs:158-193 | the whole invariant (batch registry shape, records of external accounts only, token sums, custody of queued tokens, claims covered, configuration bounds) survives every run |
| Solvency.StepKeepsWorldOk | contracts/staking/src/contract.rs:158-193 | one transaction or environment event, accepted or refused, keeps that invariant |
| Solvency.InitialWorldOk | contracts/staking/src/contract.rs:44-156 | a freshly instantiated contract satisfies it |
| Solvency.CallsKeepConfigOk | contracts/staking/src/contract.rs:276-355 | no call takes fees, periods, cooldown or deposit bounds out of their limits, and only `update_config` changes the configuration at all |
| LedgerSteps.QueueKeepsLedger | contracts/staking/src/contract.rs:804-858 | queueing keeps the registry shape and per-batch token sums, and changes no outstanding claim |
| LedgerSteps.UndelegateKeepsLedger | contracts/staking/src/contract.rs:860-958 | closing a batch and opening the next keeps the ledger and changes no outstanding claim |
| LedgerSteps.ReconcileKeepsClaims | contracts/staking/src/contract.rs:1006-1037 | the claims that a reconciliation creates are exactly those of its window, and the funds it sets aside cover all claims |
| LedgerSteps.WithdrawPaysClaim | contracts/staking/src/contract.rs:1055-1087 | both parts of a withdrawal are together the record's claim, the saturating subtractions do not saturate, and funds and claims fall by the same amount |
| LedgerSteps.ReleasedRunExists | contracts/staking/src/contract.rs:980-994 | with the registry in order no batch load of `reconcile_funds` can fail |
| Handlers.ReleasedRun | contracts/staking/src/contract.rs:980-1031 | both loops of `reconcile_funds` stop at the same batch: the end of the unbroken run of released batches within the page |
| Effects.OtherCallsKeepLedger | contracts/staking/src/contract.rs:158-193 | calls other than queue, undelegate, reconcile and withdraw leave batches, records, batch counters and reconciled funds untouched |
| Claims.TotalClaimsAtMost | contracts/staking/src/contract.rs:1114-1124 | floors never favour users: all records of a batch together claim at most what its tokens would claim as one record |
| Claims.TotalClaimsAtLeast | contracts/staking/src/contract.rs:1114-1124 | nor do they lose more than two units per record beyond the first |
| Flows.DepositIsBalanced | contracts/staking/src/contract.rs:582-612 | the messages of a deposit spend exactly the deposited funds |
| Flows.ReinvestIsBalanced | contracts/staking/src/contract.rs:753-769 | a reinvestment delegates exactly what the reward contract hands over |
| Withdrawals.WithdrawalSucceeds | contracts/staking/src/contract.rs:1043-1088 | every live claim on a reconciled batch can be paid while withdrawing is not paused: for every account, whoever is user and fee contract, the balance changes by exactly claim less fee, fee and payment; the record goes, and the slack between reconciled funds and claims is unchanged |
| Withdrawals.ClaimsPaidInAnyOrder | contracts/staking/src/contract.rs:1043-1088 | any selection of claims on reconciled batches can be withdrawn in any order, every one in full, and every account ends with what it had and what those claims pay it |
| Withdrawals.ClaimCannotOverflow | contracts/staking/src/contract.rs:1114-1122 | if tokens · rate fitted in 128 bits for the batch, none of the three products of any of its claims overflows |
| Withdrawals.ClaimIsComputable | contracts/staking/src/contract.rs:1091-1130 | a record of a reconciled batch can always be priced, and fee and payout are together its claim |
| Dust.ReconcileDust | contracts/staking/src/contract.rs:1014-1037 | of what one reconciliation sets aside for n records and expected stake T, the part nobody can claim is ≥ 0 and < 2n + T/10^18 |
| Frozen.RunFreezesBatches | contracts/staking/src/contract.rs:827-1087 | over any run closed batches keep tokens, rate, stake and release time, reconciled ones keep everything, and records of closed batches can only disappear |
| Frozen.ClaimIsFrozen | contracts/staking/src/contract.rs:1091-1130 | a claim on a reconciled batch is the same at every later time: it does not depend on the order of withdrawals |
| Frozen.PriceIsFrozen | contracts/staking/src/contract.rs:894-918 | once a batch is closed, no run changes its tokens, rate, stake or release time |
| Frozen.PaidAtMostOnce | contracts/staking/src/contract.rs:1055-1087 | after an accepted withdrawal no run brings the record back and no second withdrawal of it is accepted |
| Cooldown.AtMostEightUnbonding | contracts/staking/src/contract.rs:880-909 | in every run in which the manager never undelegates, whatever configuration updates occur, at most 8 batches wait for their release |
| Cooldown.RunKeepsSpaced | contracts/staking/src/helpers.rs:28-36 | closed batches stay at least the shortest cooldown apart, under every configuration the bounds admit |
| PoolRuns.ReachablePoolOk | contracts/staking/src/contract.rs:358-511 | in every reachable state validators are distinct, metadata is kept for exactly the pool, the total is the sum of the tracked stakes, and nothing is delegated outside the pool |
| PoolRuns.TransactKeepsPool | contracts/staking/src/contract.rs:158-193 | after the messages of an accepted call have run, that still holds, and exact tracking is kept as well |
| Pool.SlashingIsAccounted | contracts/staking/src/contract.rs:513-553 | for each pool member new stake + increase in slashed = max(old stake, delegation), so slashed never decreases |
| Pool.CheckSlashingIdempotent | contracts/staking/src/contract.rs:513-553 | a second slashing check on the same chain changes nothing |
| Pool.CheckSlashingTracks | contracts/staking/src/contract.rs:513-553 | after a check the tracked stakes are the delegations, whatever was slashed before |
| SlashFree.TrackingIsExact | contracts/staking/src/contract.rs:513-553 | in every slash-free run tracked stake = delegation for each pool member, none elsewhere, and no check records a slash |
| SlashFree.RateNeverFalls | contracts/staking/src/contract.rs:546-550 | the rate never falls in a slash-free run that keeps tokens in circulation; it stays positive, values the supply at no more than the stake, and there is stake whenever there are tokens |
| SlashFree.EveryBatchPaidInFull | contracts/staking/src/contract.rs:977-1037 | in every slash-free run the balance covers reconciled funds and all released unreconciled stake, and every batch's ratio is exactly one, over any pagination and sequence of calls |
| SlashFree.StepKeepsSlashFreeOk | contracts/staking/src/contract.rs:158-193 | every step of a slash-free run keeps solvency, pool, tracking, rate cover and funding together, and lowers the rate only when no tokens are left, and then to one |
| NoHaircut.ReconcileInFull | contracts/staking/src/contract.rs:1001-1037 | a funded reconciliation finds at least the stake it expects, sets aside exactly that, and records the ratio one |
| Rates.MintKeepsRate | contracts/staking/src/contract.rs:644-647 | rate · supply ≤ 10^18 · stake survives the floor in minting |
| Rates.BurnKeepsRate | contracts/staking/src/contract.rs:908-915 | it survives the floor in undelegating, which never takes more stake than there is |
| Rates.FreshRate | contracts/staking/src/helpers.rs:217-222 | recomputing the rate keeps it covered, never lowers it while there are tokens, and gives one without tokens |
| Rates.CheckWithoutSlashing | contracts/staking/src/contract.rs:513-553 | when stakes are tracked exactly, a check changes nothing but the rate, which it does not lower while there are tokens |
| Rates.ZeroRateExactly | contracts/staking/src/helpers.rs:217-222 | the rate calculated is zero if and only if stake > 0 and supply > 10^18 · stake |
| Deposits.ZeroRateStopsDeposits | contracts/staking/src/contract.rs:644-647 | in a world whose supply exceeds a positive delegated stake 10^18-fold no deposit transaction goes through |
| Witnesses.ZeroRateIsReachable | contracts/staking/src/contract.rs:644-647 | a world reachable from instantiation has a stored rate of zero and refuses every deposit |
| Rates.DepositBreakdownIs | contracts/staking/src/contract.rs:630-654 | two floors through decimals still mint floor(staked · 10^18 / rate); fee and stake make up the deposit |
| Rates.DepositIsPricedExactly | contracts/staking/src/contract.rs:630-654 | a deposit can be priced if and only if the rate is positive and the two intermediate decimals fit in 128 bits |
| Rates.RewardFeeIs | contracts/staking/src/contract.rs:727-737 | the reward fee is floor(balance · fee / 10^18) despite its detour through decimals, and at most the balance |
| SlashFreeRates.CallsKeepRate | contracts/staking/src/contract.rs:158-193 | each call keeps rate · supply ≤ 10^18 · stake, counting what its messages mint and burn, and lowers no rate while there are tokens |
| RoundTrip.DepositRoundTrip | contracts/staking/src/contract.rs:557-1130 | in a slash-free run, stake a deposited at rate er, its tokens queued, undelegated and reconciled: the claim before fees is at least a − ceil((er − 1)/10^18), and at most a if those tokens are alone in the record and undelegated at er; tokens must stay in circulation from the deposit until they are queued, because the rate falls back to one without any |
| RoundTrip.TokensWorthStake | contracts/staking/src/contract.rs:644-647 | floor(a · 10^18 / er) tokens are worth between a − ceil((er − 1)/10^18) and a at the same rate |
| RoundTrip.DepositMints | contracts/staking/src/contract.rs:557-628 | over the whole transaction, the supply grows by floor(staked · 10^18 / rate) and the total by the deposit less the fee |
| SelectionProofs.GreedyIsExact | contracts/staking/src/contract.rs:919-945 | the undelegation loop succeeds if and only if the amount ≤ what active pool members hold; then the amounts are positive, within each delegation, sum exactly to the amount, and all but the last drain their validator |
| SelectionProofs.GreedyIsMinimal | contracts/staking/src/contract.rs:919-945 | it takes from distinct validators, and no smaller set of active pool members holds the amount |
| SelectionProofs.DepositGoesToLeastDelegated | contracts/staking/src/helpers.rs:85-120 | a deposit goes to an active pool member of least delegation, missing ones counted as zero; it finds one if and only if one is active |
| SelectionProofs.SortTuplesSorts | contracts/staking/src/helpers.rs:150 | sorting the stake tuples gives an ordered permutation of them |
| Balancing.DepositDelegates | contracts/staking/src/contract.rs:595-612 | an accepted deposit changes the delegation of the chosen validator only, by the deposit less the fee |
| Balancing.DepositsKeepPoolLevel | contracts/staking/src/contract.rs:595-612 | over any run of deposits of at most D on an all-active pool, max − min delegation never exceeds max(initial spread, D) |
| Reinvestments.TransferHandsOver | contracts/reward/src/contract.rs:117-156 | the reward contract hands a split of its balance over to both receivers, whoever they are, exactly when it is configured for the caller |
| Progress.ReconcileAdvancesExactly | contracts/staking/src/contract.rs:962-1040 | for every call on an ordered registry: it advances if and only if reconciling is not paused, some released batch of its window has stake, there are unaccounted funds and the three results fit in 128 bits; then to the end of the window |
| Progress.PageWithoutStakeBlocks | contracts/staking/src/contract.rs:997-999 | after ten closed batches without stake no run reconciles another batch |
| Witnesses.StuckPageIsReachable | contracts/staking/src/contract.rs:980-999 | a world reachable from instantiation has ten released batches, accepts a reconciliation that changes nothing, and reconciles no batch in any run from there |
| Liveness.ReconcileAdvancesWithoutSlashing | contracts/staking/src/contract.rs:962-1040 | in every slash-free run, a reconciliation with a released batch commits if and only if it is not paused and nothing overflows, and then it advances: the stake of its window is positive and has arrived |
| Liveness.RunKeepsRatesAtLeastOne | contracts/staking/src/contract.rs:546-550 | in a slash-free run the rate is never below one, and no batch is closed at less |
| Decimals.NestedFloor | packages/stader-utils/src/coin_utils.rs:157-192 | two floored divisions in a row are one |
| Selector.GetValidatorForDeposit | contracts/staking/src/helpers.rs:85-120 | the loop with its early return answers with the specified choice, which is a least delegated active member, or with its error |
| Selector.GetActiveValidatorsSortedByStake | contracts/staking/src/helpers.rs:123-152 | the loop lists every active pool member with its delegation, in ascending order, or answers with the specified error |
| RewardContract.Reward.TransferRewards | contracts/reward/src/contract.rs:117-156 | accepts exactly what the staking contract asks for within the balance, and sends both parts except when empty |
| RewardContract.Reward.UpdateConfig | contracts/reward/src/contract.rs:158-176 | succeeds if and only if the manager calls; nothing changes otherwise |
| StakingContract.Contract.Execute | contracts/staking/src/contract.rs:158-193 | every call leaves the storage and emits the messages of the step that runs are made of (`Machine.Step`), or fails with its error: so every theorem about runs is one about these methods |
| StakingContract.Contract.Instantiate | contracts/staking/src/contract.rs:44-156 | the storage that `Administration.InstantiatingExactly` fixes, first batch open, or the specified error |
| StakingContract.Contract.UpdateConfig | contracts/staking/src/contract.rs:276-355 | the check-and-set sequence gives the specified update, which `Administration.UpdatingConfigExactly` fixes field by field, or its error |
| StakingContract.Contract.RemoveValidatorFromPool | contracts/staking/src/contract.rs:390-446 | the specified removal, whose destination and conditions `PoolChanges.RemovingExactly` fixes, or its error |
| StakingContract.Contract.RebalancePool | contracts/staking/src/contract.rs:450-511 | the specified rebalancing, whose direction and conditions `PoolChanges.RebalancingExactly` fixes, or its error |
| StakingContract.Contract.CheckSlashing | contracts/staking/src/contract.rs:513-553 | the loop over the pool computes the specified metadata, total and rate, or its error, even when an overflow stops it midway |
| StakingContract.Contract.Deposit | contracts/staking/src/contract.rs:557-628 | the specified deposit, whose conditions, payer, receivers and validator `Deposits.DepositingExactly` fixes, or its error |
| StakingContract.Contract.Reinvest | contracts/staking/src/contract.rs:704-773 | the specified reinvestment, whose conditions, rate, cooldown and receivers `Reinvestments.ReinvestingExactly` fixes, or its error |
| StakingContract.Contract.QueueUndelegation | contracts/staking/src/contract.rs:804-858 | the specified queueing, whose conditions and effect `Queueing.QueueingExactly` fixes, or its error |
| StakingContract.Contract.UndelegateStake | contracts/staking/src/contract.rs:860-958 | the sort, the loop and the batch updates give the specified undelegation, whose conditions, sources and messages `Undelegations.UndelegatingExactly` fixes, or its error |
| StakingContract.Contract.TakeFromLargest | contracts/staking/src/contract.rs:926-941 | the loop that emits messages and lowers tracked stakes carries out exactly the greedy plan, and leaves over what the plan cannot find |
| StakingContract.Contract.ReconcileFunds | contracts/staking/src/contract.rs:962-1040 | the two paginated loops together give the specified reconciliation, whose window, ratio and conditions `Settlements.ReconcilingExactly` fixes, or exactly its error |
| StakingContract.Contract.CountReleased | contracts/staking/src/contract.rs:980-995 | the first loop finds the end of the released run and its total stake; it fails on an overflow or a missing batch, whichever it meets first |
| StakingContract.Contract.MarkReleased | contracts/staking/src/contract.rs:1019-1031 | the second loop, with its own stopping test, marks exactly the batches that the first one counted, and no load fails |
| StakingContract.Contract.ComputeWithdrawableFunds | contracts/staking/src/contract.rs:1091-1130 | the claim of `Withdrawals.ClaimIsComputable`, split into payout and fee, or the specified error |
| StakingContract.Contract.WithdrawFundsToWallet | contracts/staking/src/contract.rs:1043-1088 | the conditional subtractions and sends give the specified withdrawal, which `Settlements.WithdrawingExactly` fixes account by account, or its error |

The other methods of `StakingContract.Contract` are single guards and updates; they agree with the functions of the same
name in `Handlers`.

## Left out

- StakingContract.Contract.Execute: has no calls for claiming airdrops and for handing the manager role over.
- StakingContract.Contract.Instantiate: does not emit the message that sets the withdraw address for rewards, and does not store the addresses of the token and of the airdrop registry.
- StakingContract.Contract.UpdateConfig: does not update these two addresses.
- StakingContract.Contract.RedeemRewards: does not emit the withdrawal of rewards from each validator; rewards reach the reward contract as an environment event.
- Per-batch isolation under slashing of unbonding stake: funds arrive in one pooled balance, so one ratio covers a whole window and early funds of later batches can count towards it. The contract does not promise more.
- `claim_airdrops`, the airdrop registry and its Merkle proofs: calls into contracts whose code is not here, and a transfer of airdropped tokens out of the contract's account.
- The reward contract's manager handover: a guard on a single field.
- Address validation and lower-casing: addresses are opaque numbers in the order of their strings.
- Overflow of 64-bit batch numbers and times.
- Serialization, storage keys, schemas, contract versions, migration, queries and event attributes.
- Inside the chain: conversion between shares and tokens, unbonding entry limits and redelegation locks. An undelegation or redelegation fails exactly when the delegation is short, and validators with a redelegation in progress are a set that the environment sets freely.
- The coin and decimal-coin vectors of `coin_utils.rs`, which these contracts do not use.
