/** The staking contract's storage items, the messages it emits, and the chain it runs on.
    Addresses are opaque: they are numbered in the order of their strings. Times are in nanoseconds,
    periods and cooldowns in seconds. */
module Storage {
  import opened Results
  import opened Sums

  type Addr = nat
  type BatchId = nat

  /** The account of the staking contract, and that of the reward contract. */
  const SELF: Addr := 0
  const REWARD: Addr := 1
  const VAULT_DENOM := "uluna"
  const NANOS: nat := 1_000_000_000

  function PlusSeconds(time: nat, seconds: nat): nat {
    time + seconds * NANOS
  }

  datatype Config = Config(
    manager: Addr,
    minDeposit: nat,
    maxDeposit: nat,
    rewardContract: Addr,
    protocolFeeContract: Addr,
    protocolRewardFee: nat,
    protocolDepositFee: nat,
    protocolWithdrawFee: nat,
    unbondingPeriod: nat,
    undelegationCooldown: nat,
    reinvestCooldown: nat)

  datatype State = State(
    totalStaked: nat,
    exchangeRate: nat,
    lastReconciledBatchId: BatchId,
    currentUndelegationBatchId: BatchId,
    lastUndelegationTime: nat,
    lastReinvestTime: nat,
    validators: seq<Addr>,
    reconciledFundsToWithdraw: nat)

  datatype OperationControls = OperationControls(
    depositPaused: bool,
    queueUndelegatePaused: bool,
    undelegatePaused: bool,
    withdrawPaused: bool,
    reinvestPaused: bool,
    reconcilePaused: bool,
    claimAirdropsPaused: bool,
    redeemRewardsPaused: bool)

  datatype VMeta = VMeta(staked: nat, slashed: nat, filled: nat)

  const NEW_VMETA := VMeta(0, 0, 0)

  datatype UndelegationInfo = UndelegationInfo(batchId: BatchId, tokenAmount: nat)

  datatype Batch = Batch(
    undelegatedTokens: nat,
    createTime: nat,
    estReleaseTime: Option<nat>,
    reconciled: bool,
    undelegationEr: nat,
    undelegatedStake: nat,
    unbondingSlashingRatio: nat)

  /** Everything the staking contract keeps in storage. */
  datatype Store = Store(
    config: Config,
    controls: OperationControls,
    state: State,
    validatorMeta: map<Addr, VMeta>,
    batches: map<BatchId, Batch>,
    users: map<(Addr, BatchId), UndelegationInfo>)

  datatype Coin = Coin(denom: string, amount: nat)

  /** The messages the contract emits. The batch tag of `UndelegateStake` is bookkeeping of this model only: it
      tells the environment which batch the unbonding stake belongs to. */
  datatype Message =
    | BankSend(to: Addr, amount: nat)
    | Delegate(validator: Addr, amount: nat)
    | UndelegateStake(validator: Addr, amount: nat, batch: BatchId)
    | Redelegate(src: Addr, dst: Addr, amount: nat)
    | MintTokens(to: Addr, amount: nat)
    | BurnTokens(amount: nat)
    | TransferRewards(contract: Addr, reward: nat, withdrawTo: Addr, fee: nat, feeTo: Addr)

  /** What a handler leaves behind when it succeeds. */
  datatype Response = Response(store: Store, messages: seq<Message>)

  /** The chain as the contract sees it: the delegations of the contract, the known and the bonded validators, the
      validators with a redelegation in progress, the balances in the vault denomination, the token balances and
      supply, the stake still unbonding for each batch, and the reward contract's configured counterparty. */
  datatype Chain = Chain(
    now: nat,
    known: set<Addr>,
    bonded: set<Addr>,
    redelegating: set<Addr>,
    delegations: map<Addr, nat>,
    luna: map<Addr, nat>,
    tokens: map<Addr, nat>,
    supply: nat,
    unbonding: map<BatchId, nat>,
    rewardStakingContract: Addr)

  function MetaOf(meta: map<Addr, VMeta>, v: Addr): VMeta {
    if v in meta then meta[v] else NEW_VMETA
  }

  // ---- Stake totals over the pool ----

  function DelegatedSum(pool: seq<Addr>, ds: map<Addr, nat>): nat {
    if pool == [] then 0 else DelegatedSum(pool[..|pool| - 1], ds) + Held(ds, pool[|pool| - 1])
  }

  function StakedSum(pool: seq<Addr>, meta: map<Addr, VMeta>): nat {
    if pool == [] then 0 else StakedSum(pool[..|pool| - 1], meta) + MetaOf(meta, pool[|pool| - 1]).staked
  }

  predicate NoDuplicates(pool: seq<Addr>) {
    forall i, j | 0 <= i < j < |pool| :: pool[i] != pool[j]
  }
}
