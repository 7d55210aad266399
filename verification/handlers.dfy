/** The handlers of the staking contract, as functions from storage and chain to a response. They specify the
    imperative handlers of `StakingContract` and are what the runs of `Machine` are made of. */
module Handlers {
  import opened Results
  import opened Decimals
  import opened Sums
  import opened Storage
  import opened Selection

  // ---- Bounds ----

  const DEPOSIT_FEE_CAP: nat := ONE * 5 / 100
  const WITHDRAW_FEE_CAP: nat := ONE * 5 / 100
  const REWARD_FEE_CAP: nat := ONE * 10 / 100

  predicate ValidateUnbondingPeriod(seconds: nat) {
    1814400 <= seconds < 1816200
  }

  predicate ValidateUndelegationCooldown(seconds: nat) {
    258600 <= seconds <= 259800
  }

  predicate ValidateMinDeposit(amount: nat) {
    10 <= amount <= 1_000_000
  }

  predicate ValidateMaxDeposit(amount: nat) {
    100_000_000 <= amount <= 1_000_000_000_000
  }

  // ---- Instantiation and configuration ----

  datatype InstantiateMsg = InstantiateMsg(
    minDeposit: nat,
    maxDeposit: nat,
    rewardContract: Addr,
    protocolFeeContract: Addr,
    protocolRewardFee: nat,
    protocolDepositFee: nat,
    protocolWithdrawFee: nat,
    unbondingPeriod: nat,
    undelegationCooldown: nat,
    reinvestCooldown: nat)

  const NOTHING_PAUSED := OperationControls(false, false, false, false, false, false, false, false)

  function Instantiate(now: nat, sender: Addr, msg: InstantiateMsg): Result<Store> {
    if msg.protocolRewardFee > REWARD_FEE_CAP || msg.protocolDepositFee > DEPOSIT_FEE_CAP
       || msg.protocolWithdrawFee > WITHDRAW_FEE_CAP
    then Err(ProtocolFeeAboveLimit) else
    :- Need(ValidateUnbondingPeriod(msg.unbondingPeriod), InvalidUnbondingPeriod);
    :- Need(ValidateUndelegationCooldown(msg.undelegationCooldown), InvalidUndelegationCooldown);
    :- Need(ValidateMinDeposit(msg.minDeposit), InvalidMinDeposit);
    :- Need(ValidateMaxDeposit(msg.maxDeposit), InvalidMaxDeposit);
    :- Need(msg.undelegationCooldown * NANOS <= now && msg.reinvestCooldown * NANOS <= now, Panic);
    var config := Config(
      sender, msg.minDeposit, msg.maxDeposit, msg.rewardContract, msg.protocolFeeContract, msg.protocolRewardFee,
      msg.protocolDepositFee, msg.protocolWithdrawFee, msg.unbondingPeriod, msg.undelegationCooldown,
      msg.reinvestCooldown);
    var state := State(
      0, ONE, 0, 0, now - msg.undelegationCooldown * NANOS, now - msg.reinvestCooldown * NANOS, [], 0);
    Ok(CreateNewUndelegationBatch(Store(config, NOTHING_PAUSED, state, map[], map[], map[]), now))
  }

  datatype ConfigUpdate = ConfigUpdate(
    protocolDepositFee: Option<nat>,
    protocolWithdrawFee: Option<nat>,
    protocolRewardFee: Option<nat>,
    undelegationCooldown: Option<nat>,
    unbondingPeriod: Option<nat>,
    minDeposit: Option<nat>,
    maxDeposit: Option<nat>,
    reinvestCooldown: Option<nat>)

  function UnwrapOr<T>(o: Option<T>, default: T): T {
    match o case Some(x) => x case None => default
  }

  function UpdateConfig(st: Store, sender: Addr, update: ConfigUpdate): Result<Response> {
    var c := st.config;
    var config := c.(
      protocolDepositFee := UnwrapOr(update.protocolDepositFee, c.protocolDepositFee),
      protocolWithdrawFee := UnwrapOr(update.protocolWithdrawFee, c.protocolWithdrawFee),
      protocolRewardFee := UnwrapOr(update.protocolRewardFee, c.protocolRewardFee),
      undelegationCooldown := UnwrapOr(update.undelegationCooldown, c.undelegationCooldown),
      unbondingPeriod := UnwrapOr(update.unbondingPeriod, c.unbondingPeriod),
      minDeposit := UnwrapOr(update.minDeposit, c.minDeposit),
      maxDeposit := UnwrapOr(update.maxDeposit, c.maxDeposit),
      reinvestCooldown := UnwrapOr(update.reinvestCooldown, c.reinvestCooldown));
    :- Need(sender == c.manager, Unauthorized);
    :- Need(UnwrapOr(update.protocolDepositFee, 0) <= DEPOSIT_FEE_CAP, ProtocolFeeAboveLimit);
    :- Need(UnwrapOr(update.protocolWithdrawFee, 0) <= WITHDRAW_FEE_CAP, ProtocolFeeAboveLimit);
    :- Need(UnwrapOr(update.protocolRewardFee, 0) <= REWARD_FEE_CAP, ProtocolFeeAboveLimit);
    :- Need(update.undelegationCooldown.None? || ValidateUndelegationCooldown(config.undelegationCooldown),
            InvalidUndelegationCooldown);
    :- Need(update.unbondingPeriod.None? || ValidateUnbondingPeriod(config.unbondingPeriod), InvalidUnbondingPeriod);
    :- Need(update.minDeposit.None? || ValidateMinDeposit(config.minDeposit), InvalidMinDeposit);
    :- Need(update.maxDeposit.None? || ValidateMaxDeposit(config.maxDeposit), InvalidMaxDeposit);
    Ok(Response(st.(config := config), []))
  }

  datatype FlagsUpdate = FlagsUpdate(
    depositPaused: Option<bool>,
    queueUndelegatePaused: Option<bool>,
    undelegatePaused: Option<bool>,
    withdrawPaused: Option<bool>,
    reinvestPaused: Option<bool>,
    reconcilePaused: Option<bool>,
    claimAirdropsPaused: Option<bool>,
    redeemRewardsPaused: Option<bool>)

  function UpdateOperationFlags(st: Store, sender: Addr, update: FlagsUpdate): Result<Response> {
    if sender != st.config.manager then Err(Unauthorized) else
    var c := st.controls;
    Ok(Response(st.(controls := OperationControls(
      UnwrapOr(update.depositPaused, c.depositPaused),
      UnwrapOr(update.queueUndelegatePaused, c.queueUndelegatePaused),
      UnwrapOr(update.undelegatePaused, c.undelegatePaused),
      UnwrapOr(update.withdrawPaused, c.withdrawPaused),
      UnwrapOr(update.reinvestPaused, c.reinvestPaused),
      UnwrapOr(update.reconcilePaused, c.reconcilePaused),
      UnwrapOr(update.claimAirdropsPaused, c.claimAirdropsPaused),
      UnwrapOr(update.redeemRewardsPaused, c.redeemRewardsPaused)
    )), []))
  }

  // ---- Tracking stake ----

  function IncreaseTrackedStake(meta: map<Addr, VMeta>, v: Addr, amount: nat): Result<map<Addr, VMeta>> {
    var m := MetaOf(meta, v);
    var staked :- AddU128(m.staked, amount);
    Ok(meta[v := m.(staked := staked)])
  }

  function DecreaseTrackedStake(meta: map<Addr, VMeta>, v: Addr, amount: nat): map<Addr, VMeta> {
    var m := MetaOf(meta, v);
    meta[v := m.(staked := SaturatingSub(m.staked, amount))]
  }

  function DecreaseTrackedStakes(meta: map<Addr, VMeta>, taken: seq<(Addr, nat)>): map<Addr, VMeta>
    decreases |taken|
  {
    if taken == [] then meta
    else DecreaseTrackedStakes(DecreaseTrackedStake(meta, taken[0].0, taken[0].1), taken[1..])
  }

  function CalculateExchangeRate(totalStaked: nat, totalTokenSupply: nat): Result<nat> {
    if totalStaked == 0 || totalTokenSupply == 0 then Ok(ONE) else FromRatio(totalStaked, totalTokenSupply)
  }

  function SyncMeta(m: VMeta, delegation: nat): VMeta {
    VMeta(delegation, m.slashed + SaturatingSub(m.staked, delegation), m.filled)
  }

  /** Sets the tracked stake of every pool member to its delegation and records shortfalls as slashed. */
  function SyncPool(meta: map<Addr, VMeta>, pool: seq<Addr>, ds: map<Addr, nat>): Result<map<Addr, VMeta>> {
    if pool == [] then Ok(meta)
    else
      var rest :- SyncPool(meta, pool[..|pool| - 1], ds);
      var v := pool[|pool| - 1];
      var m := SyncMeta(MetaOf(rest, v), Held(ds, v));
      if m.slashed < U128_LIMIT then Ok(rest[v := m]) else Err(Panic)
  }

  function CheckSlashing(st: Store, ch: Chain): Result<Store> {
    var pool := st.state.validators;
    var meta :- SyncPool(st.validatorMeta, pool, ch.delegations);
    var total :- Fits(DelegatedSum(pool, ch.delegations));
    var rate :- CalculateExchangeRate(total, ch.supply);
    Ok(st.(validatorMeta := meta, state := st.state.(totalStaked := total, exchangeRate := rate)))
  }

  function RedeemRewards(st: Store, ch: Chain): Result<Response> {
    var st1 :- CheckSlashing(st, ch);
    :- Need(!st.controls.redeemRewardsPaused, OperationPaused);
    Ok(Response(st1, []))
  }

  // ---- The validator pool ----

  function AddValidator(st: Store, ch: Chain, sender: Addr, v: Addr): Result<Response> {
    if sender != st.config.manager then Err(Unauthorized) else
    :- Need(v !in st.state.validators, ValidatorAlreadyAdded);
    :- Need(v in ch.known, ValidatorNotDiscoverable);
    Ok(Response(st.(state := st.state.(validators := st.state.validators + [v]),
                    validatorMeta := st.validatorMeta[v := NEW_VMETA]), []))
  }

  function Without(pool: seq<Addr>, v: Addr): seq<Addr> {
    if pool == [] then []
    else
      var rest := Without(pool[..|pool| - 1], v);
      if pool[|pool| - 1] == v then rest else rest + [pool[|pool| - 1]]
  }

  function RemoveValidatorFromPool(st: Store, ch: Chain, sender: Addr, v: Addr, redel: Addr): Result<Response> {
    if sender != st.config.manager then Err(Unauthorized) else
    var st1 :- CheckSlashing(st, ch);
    RemoveSynced(st1, ch, v, redel)
  }

  function RemoveSynced(st1: Store, ch: Chain, v: Addr, redel: Addr): Result<Response> {
    var pool := st1.state.validators;
    :- Need(v != redel, ValidatorsCannotBeSame);
    :- Need(v in pool && redel in pool, ValidatorNotAdded);
    var state := st1.state.(validators := Without(pool, v));
    if v !in ch.delegations then Ok(Response(st1.(state := state, validatorMeta := st1.validatorMeta - {v}), []))
    else
      var amount := ch.delegations[v];
      :- Need(v !in ch.redelegating, RedelegationInProgress);
      var meta :- IncreaseTrackedStake(st1.validatorMeta, redel, amount);
      Ok(Response(st1.(state := state, validatorMeta := meta - {v}),
                  if amount == 0 then [] else [Redelegate(v, redel, amount)]))
  }

  function RebalancePool(st: Store, ch: Chain, sender: Addr, amount: nat, v: Addr, redel: Addr): Result<Response> {
    if sender != st.config.manager then Err(Unauthorized) else
    :- Need(amount != 0, ZeroAmount);
    var st1 :- CheckSlashing(st, ch);
    RebalanceSynced(st1, ch, amount, v, redel)
  }

  function RebalanceSynced(st1: Store, ch: Chain, amount: nat, v: Addr, redel: Addr): Result<Response> {
    var pool := st1.state.validators;
    :- Need(v != redel, ValidatorsCannotBeSame);
    :- Need(v in pool && redel in pool, ValidatorNotAdded);
    :- Need(v in ch.delegations && amount <= ch.delegations[v], InSufficientFunds);
    :- Need(v !in ch.redelegating, RedelegationInProgress);
    var meta :- IncreaseTrackedStake(DecreaseTrackedStake(st1.validatorMeta, v, amount), redel, amount);
    Ok(Response(st1.(validatorMeta := meta), [Redelegate(v, redel, amount)]))
  }

  // ---- Deposits and rewards ----

  function SingleVaultFund(funds: seq<Coin>): Result<nat> {
    if funds == [] || funds[0].amount == 0 then Err(NoFunds) else
    :- Need(|funds| == 1, MultipleFunds);
    :- Need(funds[0].denom == VAULT_DENOM, InvalidDenom);
    Ok(funds[0].amount)
  }

  datatype DepositBreakdown = DepositBreakdown(protocolFee: nat, stakedAmount: nat, tokensToMint: nat)

  function ComputeDepositBreakdown(st: Store, amount: nat): Result<DepositBreakdown> {
    var fee :- if st.config.protocolDepositFee == 0 then Ok(0) else ScaleUint128(st.config.protocolDepositFee, amount);
    var staked := SaturatingSub(amount, fee);
    var stakedDecimal :- DecimalFromUint128(staked);
    var quotient :- DecimalDivision(stakedDecimal, st.state.exchangeRate);
    Ok(DepositBreakdown(fee, staked, Uint128FromDecimal(quotient)))
  }

  function MintMessages(to: Addr, amount: nat): seq<Message> {
    if amount == 0 then [] else [MintTokens(to, amount)]
  }

  function SendMessages(to: Addr, amount: nat): seq<Message> {
    if amount == 0 then [] else [BankSend(to, amount)]
  }

  function DelegateMessages(v: Addr, amount: nat): seq<Message> {
    if amount == 0 then [] else [Delegate(v, amount)]
  }

  function Deposit(st: Store, ch: Chain, sender: Addr, funds: seq<Coin>): Result<Response> {
    if st.controls.depositPaused then Err(OperationPaused) else
    var amount :- SingleVaultFund(funds);
    var st1 :- CheckSlashing(st, ch);
    DepositSynced(st1, ch, sender, amount)
  }

  function DepositSynced(st1: Store, ch: Chain, sender: Addr, amount: nat): Result<Response> {
    if amount > st1.config.maxDeposit then Err(MaxDeposit) else
    :- Need(st1.config.minDeposit <= amount, MinDeposit);
    var b :- ComputeDepositBreakdown(st1, amount);
    var fees := SendMessages(st1.config.protocolFeeContract, b.protocolFee);
    var mints := MintMessages(sender, b.tokensToMint);
    if b.stakedAmount == 0 then Ok(Response(st1, fees + mints))
    else
      var v :- ValidatorForDeposit(st1.state.validators, ch.bonded, ch.delegations);
      var total :- AddU128(st1.state.totalStaked, b.stakedAmount);
      var meta :- IncreaseTrackedStake(st1.validatorMeta, v, b.stakedAmount);
      Ok(Response(st1.(state := st1.state.(totalStaked := total), validatorMeta := meta),
                  fees + [Delegate(v, b.stakedAmount)] + mints))
  }

  function RewardFee(balance: nat, fee: nat): Result<nat> {
    var balanceDecimal :- DecimalFromUint128(balance);
    var product :- DecimalMultiplication(balanceDecimal, fee);
    Ok(Uint128FromDecimal(product))
  }

  function Reinvest(st: Store, ch: Chain, sender: Addr): Result<Response> {
    if st.controls.reinvestPaused then Err(OperationPaused) else
    var st1 :- CheckSlashing(st, ch);
    ReinvestSynced(st1, ch, sender)
  }

  function ReinvestSynced(st1: Store, ch: Chain, sender: Addr): Result<Response> {
    if sender != st1.config.manager
       && ch.now < PlusSeconds(st1.state.lastReinvestTime, st1.config.reinvestCooldown)
    then Err(ReinvestInCooldown) else
    var balance := Held(ch.luna, st1.config.rewardContract);
    var fee :- RewardFee(balance, st1.config.protocolRewardFee);
    var reward := SaturatingSub(balance, fee);
    var v :- ValidatorForDeposit(st1.state.validators, ch.bonded, ch.delegations);
    var total :- AddU128(st1.state.totalStaked, reward);
    var meta :- IncreaseTrackedStake(st1.validatorMeta, v, reward);
    var rate :- CalculateExchangeRate(total, ch.supply);
    Ok(Response(
      st1.(state := st1.state.(totalStaked := total, exchangeRate := rate, lastReinvestTime := ch.now),
           validatorMeta := meta),
      [TransferRewards(st1.config.rewardContract, reward, SELF, fee, st1.config.protocolFeeContract)]
      + DelegateMessages(v, reward)))
  }

  // ---- Undelegation ----

  /** Called by the token contract once it has moved `amount` tokens of `user` to the staking contract. */
  function QueueUndelegation(st: Store, ch: Chain, user: Addr, amount: nat): Result<Response> {
    if st.controls.queueUndelegatePaused then Err(OperationPaused) else
    var st1 :- CheckSlashing(st, ch);
    QueueSynced(st1, user, amount)
  }

  function QueueSynced(st1: Store, user: Addr, amount: nat): Result<Response> {
    var id := st1.state.currentUndelegationBatchId;
    var info := if (user, id) in st1.users then st1.users[(user, id)] else UndelegationInfo(id, 0);
    var queued :- AddU128(info.tokenAmount, amount);
    :- Need(id in st1.batches, Panic);
    var tokens :- if st1.batches[id].undelegatedTokens + amount < U128_LIMIT
      then Ok(st1.batches[id].undelegatedTokens + amount) else Err(Std);
    var batch := st1.batches[id].(undelegatedTokens := tokens, undelegationEr := st1.state.exchangeRate);
    Ok(Response(st1.(users := st1.users[(user, id) := info.(tokenAmount := queued)],
                     batches := st1.batches[id := batch]), []))
  }

  function NewBatch(now: nat, rate: nat): Batch {
    Batch(0, now, None, false, rate, 0, ONE)
  }

  function CreateNewUndelegationBatch(st: Store, now: nat): Store {
    var id := st.state.currentUndelegationBatchId + 1;
    st.(batches := st.batches[id := NewBatch(now, st.state.exchangeRate)],
        state := st.state.(currentUndelegationBatchId := id))
  }

  function UndelegateMessages(taken: seq<(Addr, nat)>, id: BatchId): seq<Message> {
    if taken == [] then []
    else [UndelegateStake(taken[0].0, taken[0].1, id)] + UndelegateMessages(taken[1..], id)
  }

  function UndelegateStakeHandler(st: Store, ch: Chain, sender: Addr): Result<Response> {
    if st.controls.undelegatePaused then Err(OperationPaused) else
    var st1 :- CheckSlashing(st, ch);
    UndelegateSynced(st1, ch, sender)
  }

  /** The undelegations that make up `stake`, largest delegation first. */
  function PlanUndelegation(pool: seq<Addr>, ch: Chain, stake: nat): Result<seq<(Addr, nat)>> {
    var tuples :- ActiveValidatorsSortedByStake(pool, ch.bonded, ch.delegations);
    var plan := GreedyPlan(tuples, |tuples|, stake);
    :- Need(plan.left == 0, InSufficientFunds);
    Ok(plan.taken)
  }

  function UndelegateSynced(st1: Store, ch: Chain, sender: Addr): Result<Response> {
    if sender != st1.config.manager
       && ch.now < PlusSeconds(st1.state.lastUndelegationTime, st1.config.undelegationCooldown)
    then Err(UndelegationInCooldown) else
    var id := st1.state.currentUndelegationBatchId;
    var rate := st1.state.exchangeRate;
    :- Need(id in st1.batches, Panic);
    var b := st1.batches[id];
    :- Need(b.undelegatedTokens != 0, NoOp);
    var stake :- MultiplyU128WithDecimal(b.undelegatedTokens, rate);
    var batch := b.(estReleaseTime := Some(PlusSeconds(ch.now, st1.config.unbondingPeriod)),
                    undelegatedStake := stake, undelegationEr := rate);
    var taken :- PlanUndelegation(st1.state.validators, ch, stake);
    var state := st1.state.(lastUndelegationTime := ch.now,
                            totalStaked := SaturatingSub(st1.state.totalStaked, stake));
    var st2 := st1.(state := state, batches := st1.batches[id := batch],
                    validatorMeta := DecreaseTrackedStakes(st1.validatorMeta, taken));
    Ok(Response(CreateNewUndelegationBatch(st2, ch.now),
                UndelegateMessages(taken, id) + [BurnTokens(b.undelegatedTokens)]))
  }

  // ---- Reconciling and withdrawing ----

  const PAGE: nat := 10

  predicate Released(b: Batch, now: nat) {
    b.estReleaseTime.Some? && b.estReleaseTime.value <= now
  }

  /** The last batch of the unbroken run of released batches after `last` and below `bound`. */
  function ReleasedUpTo(batches: map<BatchId, Batch>, last: BatchId, bound: BatchId, now: nat): Result<BatchId>
    decreases bound - last
  {
    if bound <= last + 1 then Ok(last)
    else if last + 1 !in batches then Err(Std)
    else if !Released(batches[last + 1], now) then Ok(last)
    else ReleasedUpTo(batches, last + 1, bound, now)
  }

  /** Both loops of `reconcile_funds` stop at the same batch: the end of the unbroken run of released batches, at most
      a page after the last reconciled one. */
  lemma {:induction false} ReleasedRun(batches: map<BatchId, Batch>, last: BatchId, bound: BatchId, now: nat)
    requires ReleasedUpTo(batches, last, bound, now).Ok?
    ensures var end := ReleasedUpTo(batches, last, bound, now).value;
      && last <= end && (if last < bound then end < bound else end == last)
      && (forall id | last < id <= end :: id in batches && Released(batches[id], now))
      && (end + 1 < bound ==> end + 1 in batches && !Released(batches[end + 1], now))
    decreases bound - last
  {
    if last + 1 < bound && Released(batches[last + 1], now) {
      ReleasedRun(batches, last + 1, bound, now);
    }
  }

  const NO_BATCH := Batch(0, 0, None, false, 0, 0, 0)

  function BatchAt(batches: map<BatchId, Batch>, id: BatchId): Batch {
    if id in batches then batches[id] else NO_BATCH
  }

  /** The stake undelegated for the batches after `lo` up to and including `hi`. */
  function ExpectedStake(batches: map<BatchId, Batch>, lo: BatchId, hi: BatchId): nat {
    if hi <= lo then 0 else ExpectedStake(batches, lo, hi - 1) + BatchAt(batches, hi).undelegatedStake
  }

  function MarkReconciled(batches: map<BatchId, Batch>, lo: BatchId, hi: BatchId, ratio: nat): map<BatchId, Batch> {
    map id | id in batches ::
      if lo < id <= hi then batches[id].(unbondingSlashingRatio := ratio, reconciled := true) else batches[id]
  }

  /** The last batch read before the first loop of `reconcile_funds` stops, for whatever reason. */
  function ReadUpTo(batches: map<BatchId, Batch>, last: BatchId, bound: BatchId, now: nat): BatchId
    decreases bound - last
  {
    if bound <= last + 1 || last + 1 !in batches || !Released(batches[last + 1], now) then last
    else ReadUpTo(batches, last + 1, bound, now)
  }

  /** The end of the window. A batch is missed only if the stake of those before it has not overflowed. */
  function ReleasedWindow(batches: map<BatchId, Batch>, last: BatchId, bound: BatchId, now: nat): Result<BatchId> {
    match ReleasedUpTo(batches, last, bound, now)
    case Ok(end) => Ok(end)
    case Err(e) =>
      if ExpectedStake(batches, last, ReadUpTo(batches, last, bound, now)) < U128_LIMIT then Err(e) else Err(Panic)
  }

  function ReconcileFunds(st: Store, ch: Chain): Result<Response> {
    if st.controls.reconcilePaused then Err(OperationPaused) else
    var last := st.state.lastReconciledBatchId;
    var bound := Min(st.state.currentUndelegationBatchId + 1, last + 1 + PAGE);
    var end :- ReleasedWindow(st.batches, last, bound, ch.now);
    var expected :- Fits(ExpectedStake(st.batches, last, end));
    if expected == 0 then Ok(Response(st, []))
    else
      var unaccounted := SaturatingSub(Held(ch.luna, SELF), st.state.reconciledFundsToWithdraw);
      :- Need(unaccounted != 0, ZeroAmount);
      var received :- FromRatio(unaccounted, expected);
      var reconciled :- AddU128(st.state.reconciledFundsToWithdraw, Min(unaccounted, expected));
      Ok(Response(st.(batches := MarkReconciled(st.batches, last, end, Min(received, ONE)),
                      state := st.state.(reconciledFundsToWithdraw := reconciled, lastReconciledBatchId := end)), []))
  }

  datatype ClaimRecord = ClaimRecord(userWithdrawalAmount: nat, protocolFee: nat, undelegatedTokens: nat)

  function ComputeWithdrawableFunds(st: Store, id: BatchId, user: Addr): Result<ClaimRecord> {
    if id !in st.batches then Err(UndelegationBatchNotFound) else
    var b := st.batches[id];
    :- Need(b.reconciled, UndelegationBatchNotReconciled);
    :- Need((user, id) in st.users, UndelegationEntryNotFound);
    var tokens := st.users[(user, id)].tokenAmount;
    var undelegated :- MultiplyU128WithDecimal(tokens, b.undelegationEr);
    var claimable :- MultiplyU128WithDecimal(undelegated, b.unbondingSlashingRatio);
    var fee :- MultiplyU128WithDecimal(claimable, st.config.protocolWithdrawFee);
    Ok(ClaimRecord(SaturatingSub(claimable, fee), fee, tokens))
  }

  function WithdrawFundsToWallet(st: Store, user: Addr, id: BatchId): Result<Response> {
    if st.controls.withdrawPaused then Err(OperationPaused) else
    var r :- ComputeWithdrawableFunds(st, id, user);
    var funds := SaturatingSub(
      SaturatingSub(st.state.reconciledFundsToWithdraw, r.userWithdrawalAmount), r.protocolFee);
    Ok(Response(
      st.(state := st.state.(reconciledFundsToWithdraw := funds), users := st.users - {(user, id)}),
      SendMessages(user, r.userWithdrawalAmount) + SendMessages(st.config.protocolFeeContract, r.protocolFee)))
  }
}
