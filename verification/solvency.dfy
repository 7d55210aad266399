/** Solvency: in every run, slashing included, the claims of all records never exceed the funds set aside for them,
    and those never exceed the contract's balance. */
module Solvency {
  import opened Results
  import opened Decimals
  import opened Sums
  import opened Storage
  import opened Handlers
  import opened Messages
  import opened Machine
  import opened Claims
  import opened Effects
  import opened Ledger
  import opened LedgerSteps
  import opened Flows

  /** The bounds that instantiation and every configuration update enforce. */
  predicate ConfigOk(c: Config) {
    && c.protocolDepositFee <= DEPOSIT_FEE_CAP
    && c.protocolWithdrawFee <= WITHDRAW_FEE_CAP
    && c.protocolRewardFee <= REWARD_FEE_CAP
    && ValidateUnbondingPeriod(c.unbondingPeriod)
    && ValidateUndelegationCooldown(c.undelegationCooldown)
    && ValidateMinDeposit(c.minDeposit)
    && ValidateMaxDeposit(c.maxDeposit)
  }

  function OpenBatch(s: Store): Batch {
    BatchAt(s.batches, s.state.currentUndelegationBatchId)
  }

  ghost predicate ChainOk(s: Store, ch: Chain) {
    && s.state.reconciledFundsToWithdraw <= Held(ch.luna, SELF)
    && OpenBatch(s).undelegatedTokens <= Held(ch.tokens, SELF)
    && Total(ch.tokens) == ch.supply
  }

  /** Only external accounts have undelegation records. */
  ghost predicate OwnersExternal(s: Store) {
    forall k | k in s.users :: External(k.0)
  }

  ghost predicate WorldOk(w: World) {
    && ConfigOk(w.store.config) && LedgerOk(w.store, w.withdrawn) && ChainOk(w.store, w.chain)
    && OwnersExternal(w.store)
  }

  // ---- Configuration ----

  lemma SyncedCallsKeepConfig(s: Store, ch: Chain, sender: Addr, user: Addr, amount: nat, v: Addr, redel: Addr)
    ensures DepositSynced(s, ch, sender, amount).Ok?
      ==> DepositSynced(s, ch, sender, amount).value.store.config == s.config
    ensures ReinvestSynced(s, ch, sender).Ok? ==> ReinvestSynced(s, ch, sender).value.store.config == s.config
    ensures QueueSynced(s, user, amount).Ok? ==> QueueSynced(s, user, amount).value.store.config == s.config
    ensures UndelegateSynced(s, ch, sender).Ok? ==> UndelegateSynced(s, ch, sender).value.store.config == s.config
    ensures RemoveSynced(s, ch, v, redel).Ok? ==> RemoveSynced(s, ch, v, redel).value.store.config == s.config
    ensures RebalanceSynced(s, ch, amount, v, redel).Ok?
      ==> RebalanceSynced(s, ch, amount, v, redel).value.store.config == s.config
  {
    hide ComputeDepositBreakdown, RewardFee, Selection.ValidatorForDeposit, IncreaseTrackedStake,
      DecreaseTrackedStake, CalculateExchangeRate, PlanUndelegation, MultiplyU128WithDecimal, Without;
  }

  /** No call takes the configuration out of its bounds. */
  lemma CallsKeepConfigOk(s: Store, ch: Chain, sender: Addr, funds: seq<Coin>, call: Call)
    requires ConfigOk(s.config) && Dispatch(s, ch, sender, funds, call).Ok?
    ensures ConfigOk(Dispatch(s, ch, sender, funds, call).value.store.config)
    ensures !call.CallUpdateConfig? ==> Dispatch(s, ch, sender, funds, call).value.store.config == s.config
  {
    hide CheckSlashing, DepositSynced, ReinvestSynced, RemoveSynced, RebalanceSynced, QueueSynced, UndelegateSynced,
      ReleasedUpTo, ExpectedStake, MarkReconciled, ComputeWithdrawableFunds;
    if CheckSlashing(s, ch).Ok? {
      CheckSlashingEffect(s, ch);
      var amount := match call
        case CallQueueUndelegation(a) => a
        case CallRebalancePool(a, _, _) => a
        case CallDeposit => SingleVaultFund(funds).GetOr(0)
        case _ => 0;
      var (v, redel) := match call
        case CallRemoveValidator(x, y) => (x, y)
        case CallRebalancePool(_, x, y) => (x, y)
        case _ => (0, 0);
      SyncedCallsKeepConfig(CheckSlashing(s, ch).value, ch, sender, sender, amount, v, redel);
    }
  }

  /** Records are made only for the sender of a call. */
  lemma CallsKeepOwners(s: Store, ch: Chain, sender: Addr, funds: seq<Coin>, call: Call)
    requires OwnersExternal(s) && External(sender) && Dispatch(s, ch, sender, funds, call).Ok?
    ensures OwnersExternal(Dispatch(s, ch, sender, funds, call).value.store)
  {
    hide CheckSlashing, QueueUndelegation, UndelegateStakeHandler, ReconcileFunds, WithdrawFundsToWallet, Deposit,
      Reinvest, RedeemRewards, AddValidator, RemoveValidatorFromPool, RebalancePool, UpdateConfig,
      UpdateOperationFlags, MulFloor, MarkReconciled, ExpectedStake, ReleasedUpTo;
    match call
    case CallQueueUndelegation(amount) => QueueEffect(s, ch, sender, amount);
    case CallUndelegate => UndelegateEffect(s, ch, sender);
    case CallReconcileFunds => ReconcileEffect(s, ch);
    case CallWithdraw(id) => WithdrawEffect(s, sender, id);
    case _ => OtherCallsKeepLedger(s, ch, sender, funds, call);
  }

  // ---- What comes in with a call ----

  lemma VaultAmountOfSingle(funds: seq<Coin>)
    requires SingleVaultFund(funds).Ok?
    ensures VaultAmount(funds) == SingleVaultFund(funds).value
  {
    assert funds[..|funds| - 1] == [];
  }

  lemma AttachEffect(ch: Chain, sender: Addr, funds: seq<Coin>, call: Call)
    requires External(sender) && Attach(ch, sender, funds, call).Ok? && Total(ch.tokens) == ch.supply
    ensures var before := Attach(ch, sender, funds, call).value;
      && Held(before.luna, SELF) == Held(ch.luna, SELF) + VaultAmount(funds)
      && Held(before.tokens, SELF)
         == Held(ch.tokens, SELF) + (if call.CallQueueUndelegation? then call.amount else 0)
      && Total(before.tokens) == before.supply == ch.supply
      && before.delegations == ch.delegations && before.unbonding == ch.unbonding && before.now == ch.now
      && before.bonded == ch.bonded
  {
    hide Total, VaultAmount;
    if call.CallQueueUndelegation? {
      TotalMove(ch.tokens, sender, SELF, call.amount);
    }
  }

  // ---- One transaction ----

  /** Calls outside the ledger take no more from the balance than was attached to them. */
  lemma OtherCallsAreBalanced(s: Store, ch: Chain, sender: Addr, funds: seq<Coin>, call: Call)
    requires ConfigOk(s.config) && !TouchesLedger(call) && Dispatch(s, ch, sender, funds, call).Ok?
    ensures var ms := Dispatch(s, ch, sender, funds, call).value.messages;
      TotalNetLuna(ms) + VaultAmount(funds) >= 0 && TotalBurnt(ms) == 0
  {
    hide CheckSlashing, DepositSynced, ReinvestSynced, RemoveSynced, RebalanceSynced, VaultAmount;
    if CheckSlashing(s, ch).Ok? {
      var s1 := CheckSlashing(s, ch).value;
      CheckSlashingEffect(s, ch);
      match call
      case CallDeposit =>
        VaultAmountOfSingle(funds);
        DepositIsBalanced(s1, ch, sender, SingleVaultFund(funds).value);
      case CallReinvest => ReinvestIsBalanced(s1, ch, sender);
      case CallRemoveValidator(v, redel) => PoolCallsAreBalanced(s1, ch, 0, v, redel);
      case CallRebalancePool(amount, v, redel) => PoolCallsAreBalanced(s1, ch, amount, v, redel);
      case _ =>
    }
  }

  lemma OtherCallsKeepWorldOk(w: World, before: Chain, sender: Addr, funds: seq<Coin>, call: Call)
    requires WorldOk(w) && External(sender) && !TouchesLedger(call)
    requires Attach(w.chain, sender, funds, call) == Ok(before)
    requires Dispatch(w.store, before, sender, funds, call).Ok?
    requires ExecuteAll(before, Dispatch(w.store, before, sender, funds, call).value.messages).Ok?
    ensures WorldOk(Transact(w, sender, funds, call).value)
  {
    hide Attach, Dispatch, ExecuteAll, LedgerOk, ConfigOk, OwnersExternal, VaultAmount, Total, TotalNetLuna,
      TotalBurnt;
    var r := Dispatch(w.store, before, sender, funds, call).value;
    AttachEffect(w.chain, sender, funds, call);
    OtherCallsKeepLedger(w.store, before, sender, funds, call);
    OtherCallsAreBalanced(w.store, before, sender, funds, call);
    SameKeepsLedger(w.store, r.store, w.withdrawn);
    CallsKeepConfigOk(w.store, before, sender, funds, call);
    CallsKeepOwners(w.store, before, sender, funds, call);
    ExecuteAllCovers(before, r.messages);
  }

  lemma QueueKeepsWorldOk(w: World, before: Chain, sender: Addr, funds: seq<Coin>, call: Call)
    requires WorldOk(w) && External(sender) && call.CallQueueUndelegation?
    requires Attach(w.chain, sender, funds, call) == Ok(before)
    requires Dispatch(w.store, before, sender, funds, call).Ok?
    ensures Transact(w, sender, funds, call).Ok? && WorldOk(Transact(w, sender, funds, call).value)
  {
    hide Attach, LedgerOk, ConfigOk, OwnersExternal, VaultAmount, Total, CheckSlashing, QueueSynced;
    var r := Dispatch(w.store, before, sender, funds, call).value;
    AttachEffect(w.chain, sender, funds, call);
    QueueEffect(w.store, before, sender, call.amount);
    QueueKeepsLedger(w.store, r.store, w.withdrawn, sender, call.amount,
                     CheckSlashing(w.store, before).value.state.exchangeRate);
    CallsKeepConfigOk(w.store, before, sender, funds, call);
    CallsKeepOwners(w.store, before, sender, funds, call);
  }

  lemma UndelegateNetOfHandler(s: Store, ch: Chain, sender: Addr)
    requires UndelegateStakeHandler(s, ch, sender).Ok?
    ensures var ms := UndelegateStakeHandler(s, ch, sender).value.messages;
      TotalNetLuna(ms) == 0 && TotalBurnt(ms) == OpenBatch(s).undelegatedTokens
  {
    hide CheckSlashing, UndelegateSynced;
    CheckSlashingEffect(s, ch);
    UndelegateIsBalanced(CheckSlashing(s, ch).value, ch, sender);
    UndelegateSyncedEffect(CheckSlashing(s, ch).value, ch, sender);
  }

  lemma UndelegateKeepsWorldOk(w: World, before: Chain, sender: Addr, funds: seq<Coin>, call: Call)
    requires WorldOk(w) && External(sender) && call.CallUndelegate?
    requires Attach(w.chain, sender, funds, call) == Ok(before)
    requires Dispatch(w.store, before, sender, funds, call).Ok?
    requires ExecuteAll(before, Dispatch(w.store, before, sender, funds, call).value.messages).Ok?
    ensures WorldOk(Transact(w, sender, funds, call).value)
  {
    hide Attach, ExecuteAll, LedgerOk, ConfigOk, OwnersExternal, VaultAmount, Total, UndelegateStakeHandler,
      TotalNetLuna, TotalBurnt;
    var r := Dispatch(w.store, before, sender, funds, call).value;
    AttachEffect(w.chain, sender, funds, call);
    UndelegateEffect(w.store, before, sender);
    UndelegateNetOfHandler(w.store, before, sender);
    UndelegateKeepsLedger(w.store, r.store, w.withdrawn, before.now,
                          PlusSeconds(before.now, w.store.config.unbondingPeriod),
                          CheckSlashing(w.store, before).value.state.exchangeRate);
    CallsKeepConfigOk(w.store, before, sender, funds, call);
    CallsKeepOwners(w.store, before, sender, funds, call);
    ExecuteAllCovers(before, r.messages);
  }

  lemma ReconcileKeepsWorldOk(w: World, before: Chain, sender: Addr, funds: seq<Coin>, call: Call)
    requires WorldOk(w) && External(sender) && call.CallReconcileFunds?
    requires Attach(w.chain, sender, funds, call) == Ok(before)
    requires Dispatch(w.store, before, sender, funds, call).Ok?
    ensures Transact(w, sender, funds, call).Ok? && WorldOk(Transact(w, sender, funds, call).value)
  {
    hide Attach, ConfigOk, OwnersExternal, VaultAmount, Total, ReconcileFunds, OutstandingClaims, TokensAddUp,
      ExpectedStake;
    var s := w.store;
    var r := Dispatch(s, before, sender, funds, call).value;
    AttachEffect(w.chain, sender, funds, call);
    ReconcileEffect(s, before);
    CallsKeepConfigOk(s, before, sender, funds, call);
    CallsKeepOwners(s, before, sender, funds, call);
    if r.store != s {
      var unaccounted := SaturatingSub(Held(before.luna, SELF), s.state.reconciledFundsToWithdraw);
      ReconcileKeepsLedger(s, r.store, w.withdrawn, before.now, r.store.state.lastReconciledBatchId, unaccounted);
      ReconcileWindow(s, r.store, w.withdrawn, before.now, r.store.state.lastReconciledBatchId, unaccounted);
    }
  }

  lemma WithdrawKeepsWorldOk(w: World, before: Chain, sender: Addr, funds: seq<Coin>, call: Call)
    requires WorldOk(w) && External(sender) && call.CallWithdraw?
    requires Attach(w.chain, sender, funds, call) == Ok(before)
    requires Dispatch(w.store, before, sender, funds, call).Ok?
    requires ExecuteAll(before, Dispatch(w.store, before, sender, funds, call).value.messages).Ok?
    ensures WorldOk(Transact(w, sender, funds, call).value)
  {
    hide Attach, ExecuteAll, OwnersExternal, VaultAmount, Total, WithdrawFundsToWallet, TotalNetLuna, TotalBurnt,
      LedgerOk, MulFloor;
    var s := w.store;
    var r := Dispatch(s, before, sender, funds, call).value;
    AttachEffect(w.chain, sender, funds, call);
    WithdrawEffect(s, sender, call.id);
    var c := ComputeWithdrawableFunds(s, call.id, sender).value;
    WithdrawPaysClaim(s, r.store, w.withdrawn, sender, call.id, c.userWithdrawalAmount, c.protocolFee);
    WithdrawKeepsLedger(s, r.store, w.withdrawn, sender, call.id, c.userWithdrawalAmount, c.protocolFee);
    CallsKeepConfigOk(s, before, sender, funds, call);
    CallsKeepOwners(s, before, sender, funds, call);
    WithdrawIsBalanced(sender, c.userWithdrawalAmount, s.config.protocolFeeContract, c.protocolFee);
    ExecuteAllCovers(before, r.messages);
  }

  lemma TransactKeepsWorldOk(w: World, sender: Addr, funds: seq<Coin>, call: Call)
    requires WorldOk(w) && External(sender) && Transact(w, sender, funds, call).Ok?
    ensures WorldOk(Transact(w, sender, funds, call).value)
  {
    hide Attach, Dispatch, ExecuteAll, WorldOk;
    var before := Attach(w.chain, sender, funds, call).value;
    match call
    case CallQueueUndelegation(_) => QueueKeepsWorldOk(w, before, sender, funds, call);
    case CallUndelegate => UndelegateKeepsWorldOk(w, before, sender, funds, call);
    case CallReconcileFunds => ReconcileKeepsWorldOk(w, before, sender, funds, call);
    case CallWithdraw(_) => WithdrawKeepsWorldOk(w, before, sender, funds, call);
    case _ => OtherCallsKeepWorldOk(w, before, sender, funds, call);
  }

  // ---- Runs ----

  lemma ChainStepKeepsChainOk(s: Store, ch: Chain, e: Event)
    requires ChainOk(s, ch) && !e.Tx?
    ensures ChainOk(s, ChainStep(ch, e))
  {
    hide Total;
    match e
    case TransferTokens(from, to, amount) =>
      if External(from) && amount <= Held(ch.tokens, from) {
        TotalMove(ch.tokens, from, to, amount);
      }
    case BurnOwnTokens(from, amount) =>
      if External(from) && amount <= Held(ch.tokens, from) && amount <= ch.supply {
        TotalDebit(ch.tokens, from, amount);
      }
    case _ =>
  }

  lemma StepKeepsWorldOk(w: World, e: Event)
    requires WorldOk(w)
    ensures WorldOk(Step(w, e))
  {
    hide LedgerOk, ChainOk, OwnersExternal, Transact, ChainStep;
    if Accepted(w, e) {
      TransactKeepsWorldOk(w, e.sender, e.funds, e.call);
    } else if !e.Tx? {
      ChainStepKeepsChainOk(w.store, w.chain, e);
    }
  }

  lemma InitialWorldOk(w: World)
    requires Initial(w)
    ensures WorldOk(w)
  {
    var s := w.store;
    assert s.users == map[];
    NoRecords(s.users, 1);
    assert OutstandingClaims(s) == 0;
  }

  /** Every reachable world is solvent: outstanding claims are covered by the reconciled funds, and those by the
      contract's balance. The whole ledger is in order as well. */
  lemma {:induction false} RunIsSolvent(w: World, es: seq<Event>)
    requires WorldOk(w)
    ensures WorldOk(Run(w, es))
    ensures var s := Run(w, es).store;
      OutstandingClaims(s) <= s.state.reconciledFundsToWithdraw <= Held(Run(w, es).chain.luna, SELF)
    decreases |es|
  {
    hide Step;
    if es != [] {
      StepKeepsWorldOk(w, es[0]);
      RunIsSolvent(Step(w, es[0]), es[1..]);
    }
  }

  lemma ReachableIsSolvent(w: World, es: seq<Event>)
    requires Initial(w)
    ensures var end := Run(w, es);
      && WorldOk(end)
      && OutstandingClaims(end.store) <= end.store.state.reconciledFundsToWithdraw <= Held(end.chain.luna, SELF)
  {
    hide Initial, WorldOk, Run;
    InitialWorldOk(w);
    RunIsSolvent(w, es);
  }
}
