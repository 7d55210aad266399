/** Instantiation, configuration and pausing, and the call that only checks for slashing: exactly when they succeed and
    which fields they change. */
module Administration {
  import opened Results
  import opened Decimals
  import opened Sums
  import opened Storage
  import opened Handlers
  import opened Machine
  import opened SlashingCheck

  /** Only the attached funds have moved on the chain. */
  ghost predicate OnlyFundsMove(w: World, t: World, sender: Addr, funds: seq<Coin>) {
    && t.chain == w.chain.(luna := t.chain.luna)
    && Moved(w.chain.luna, t.chain.luna, sender, SELF, VaultAmount(funds))
    && t.withdrawn == w.withdrawn
  }

  // ---- Bounds ----

  const PERCENT: nat := 10_000_000_000_000_000

  predicate FeesAllowed(depositFee: nat, withdrawFee: nat, rewardFee: nat) {
    depositFee <= 5 * PERCENT && withdrawFee <= 5 * PERCENT && rewardFee <= 10 * PERCENT
  }

  /** About three weeks to unbond, and a cooldown of about three days, in seconds. */
  predicate PeriodsAllowed(unbondingPeriod: nat, cooldown: nat) {
    1814400 <= unbondingPeriod < 1816200 && 258600 <= cooldown <= 259800
  }

  predicate DepositsAllowed(min: nat, max: nat) {
    10 <= min <= 1_000_000 && 100_000_000 <= max <= 1_000_000_000_000
  }

  // ---- Instantiation ----

  /** A contract starts if and only if its configuration is within the bounds and its two cooldowns can have started
      before now. It starts with nothing staked, the rate one, both cooldowns over, and the first batch open. */
  lemma InstantiatingExactly(now: nat, sender: Addr, msg: InstantiateMsg)
    ensures var r := Instantiate(now, sender, msg);
      && (r.Ok? <==>
            && FeesAllowed(msg.protocolDepositFee, msg.protocolWithdrawFee, msg.protocolRewardFee)
            && PeriodsAllowed(msg.unbondingPeriod, msg.undelegationCooldown)
            && DepositsAllowed(msg.minDeposit, msg.maxDeposit)
            && msg.undelegationCooldown * NANOS <= now && msg.reinvestCooldown * NANOS <= now)
      && (r.Ok? ==>
            var t := r.value; var c := t.config;
            && c.manager == sender && c.rewardContract == msg.rewardContract
            && c.protocolFeeContract == msg.protocolFeeContract
            && c.protocolDepositFee == msg.protocolDepositFee && c.protocolWithdrawFee == msg.protocolWithdrawFee
            && c.protocolRewardFee == msg.protocolRewardFee
            && c.unbondingPeriod == msg.unbondingPeriod && c.undelegationCooldown == msg.undelegationCooldown
            && c.reinvestCooldown == msg.reinvestCooldown
            && c.minDeposit == msg.minDeposit && c.maxDeposit == msg.maxDeposit
            && t.controls == OperationControls(false, false, false, false, false, false, false, false)
            && t.state.totalStaked == 0 && t.state.exchangeRate == ONE && t.state.validators == []
            && t.state.reconciledFundsToWithdraw == 0
            && t.state.lastReconciledBatchId == 0 && t.state.currentUndelegationBatchId == 1
            && t.state.lastUndelegationTime + msg.undelegationCooldown * NANOS == now
            && t.state.lastReinvestTime + msg.reinvestCooldown * NANOS == now
            && t.batches == map[1 := Batch(0, now, None, false, ONE, 0, ONE)]
            && t.validatorMeta == map[] && t.users == map[])
  {
  }

  // ---- Configuration ----

  /** `after` is the requested value, or else still the one before. */
  predicate Set<T(==)>(before: T, requested: Option<T>, after: T) {
    after == match requested case Some(x) => x case None => before
  }

  predicate Requestable(update: ConfigUpdate) {
    && FeesAllowed(UnwrapOr(update.protocolDepositFee, 0), UnwrapOr(update.protocolWithdrawFee, 0),
                   UnwrapOr(update.protocolRewardFee, 0))
    && PeriodsAllowed(UnwrapOr(update.unbondingPeriod, 1814400), UnwrapOr(update.undelegationCooldown, 259200))
    && DepositsAllowed(UnwrapOr(update.minDeposit, 10), UnwrapOr(update.maxDeposit, 100_000_000))
  }

  /** Every requested value is in its own field, and every other field is as before. */
  predicate Reconfigured(c: Config, update: ConfigUpdate, d: Config) {
    && d.manager == c.manager && d.rewardContract == c.rewardContract && d.protocolFeeContract == c.protocolFeeContract
    && Set(c.protocolDepositFee, update.protocolDepositFee, d.protocolDepositFee)
    && Set(c.protocolWithdrawFee, update.protocolWithdrawFee, d.protocolWithdrawFee)
    && Set(c.protocolRewardFee, update.protocolRewardFee, d.protocolRewardFee)
    && Set(c.undelegationCooldown, update.undelegationCooldown, d.undelegationCooldown)
    && Set(c.unbondingPeriod, update.unbondingPeriod, d.unbondingPeriod)
    && Set(c.minDeposit, update.minDeposit, d.minDeposit)
    && Set(c.maxDeposit, update.maxDeposit, d.maxDeposit)
    && Set(c.reinvestCooldown, update.reinvestCooldown, d.reinvestCooldown)
  }

  lemma UpdateConfigHandled(s: Store, sender: Addr, update: ConfigUpdate)
    ensures var r := UpdateConfig(s, sender, update);
      && (r.Ok? <==> sender == s.config.manager && Requestable(update))
      && (r.Ok? ==> && r.value == Response(s.(config := r.value.store.config), [])
                    && Reconfigured(s.config, update, r.value.store.config))
  {
  }

  /** The manager, and nobody else, changes the configuration; all requested values are within their bounds. */
  lemma UpdatingConfigExactly(w: World, sender: Addr, funds: seq<Coin>, update: ConfigUpdate)
    ensures var r := Transact(w, sender, funds, CallUpdateConfig(update)); var s := w.store;
      && (r.Ok? <==> && sender == s.config.manager && Requestable(update)
                     && VaultAmount(funds) <= Held(w.chain.luna, sender))
      && (r.Ok? ==> && r.value.store == s.(config := r.value.store.config)
                    && Reconfigured(s.config, update, r.value.store.config)
                    && OnlyFundsMove(w, r.value, sender, funds))
  {
    hide Attach, Handlers.UpdateConfig, Moved, VaultAmount, Requestable, Reconfigured;
    AttachExactly(w.chain, sender, funds, CallUpdateConfig(update));
    UpdateConfigHandled(w.store, sender, update);
  }

  // ---- Pausing ----

  predicate Reflagged(c: OperationControls, update: FlagsUpdate, d: OperationControls) {
    && Set(c.depositPaused, update.depositPaused, d.depositPaused)
    && Set(c.queueUndelegatePaused, update.queueUndelegatePaused, d.queueUndelegatePaused)
    && Set(c.undelegatePaused, update.undelegatePaused, d.undelegatePaused)
    && Set(c.withdrawPaused, update.withdrawPaused, d.withdrawPaused)
    && Set(c.reinvestPaused, update.reinvestPaused, d.reinvestPaused)
    && Set(c.reconcilePaused, update.reconcilePaused, d.reconcilePaused)
    && Set(c.claimAirdropsPaused, update.claimAirdropsPaused, d.claimAirdropsPaused)
    && Set(c.redeemRewardsPaused, update.redeemRewardsPaused, d.redeemRewardsPaused)
  }

  lemma UpdateFlagsHandled(s: Store, sender: Addr, update: FlagsUpdate)
    ensures var r := UpdateOperationFlags(s, sender, update);
      && (r.Ok? <==> sender == s.config.manager)
      && (r.Ok? ==> && r.value == Response(s.(controls := r.value.store.controls), [])
                    && Reflagged(s.controls, update, r.value.store.controls))
  {
  }

  /** The manager, and nobody else, pauses and resumes operations, each flag for itself. */
  lemma UpdatingFlagsExactly(w: World, sender: Addr, funds: seq<Coin>, update: FlagsUpdate)
    ensures var r := Transact(w, sender, funds, CallUpdateOperationFlags(update)); var s := w.store;
      && (r.Ok? <==> sender == s.config.manager && VaultAmount(funds) <= Held(w.chain.luna, sender))
      && (r.Ok? ==> && r.value.store == s.(controls := r.value.store.controls)
                    && Reflagged(s.controls, update, r.value.store.controls)
                    && OnlyFundsMove(w, r.value, sender, funds))
  {
    hide Attach, Handlers.UpdateOperationFlags, Moved, VaultAmount, Reflagged;
    AttachExactly(w.chain, sender, funds, CallUpdateOperationFlags(update));
    UpdateFlagsHandled(w.store, sender, update);
  }

  // ---- Refusals ----

  predicate PausedFor(c: OperationControls, call: Call) {
    match call
    case CallDeposit => c.depositPaused
    case CallQueueUndelegation(_) => c.queueUndelegatePaused
    case CallUndelegate => c.undelegatePaused
    case CallWithdraw(_) => c.withdrawPaused
    case CallReinvest => c.reinvestPaused
    case CallReconcileFunds => c.reconcilePaused
    case _ => false
  }

  /** A paused operation answers so, whatever else is wrong with the call. */
  lemma PausedCallsAreRefused(s: Store, ch: Chain, sender: Addr, funds: seq<Coin>, call: Call)
    requires PausedFor(s.controls, call)
    ensures Dispatch(s, ch, sender, funds, call) == Err(OperationPaused)
  {
  }

  predicate ForManager(call: Call) {
    call.CallAddValidator? || call.CallRemoveValidator? || call.CallRebalancePool? || call.CallUpdateConfig?
    || call.CallUpdateOperationFlags?
  }

  /** The pool, the configuration and the flags are the manager's: others are turned away before anything else. */
  lemma OthersAreTurnedAway(s: Store, ch: Chain, sender: Addr, funds: seq<Coin>, call: Call)
    requires ForManager(call) && sender != s.config.manager
    ensures Dispatch(s, ch, sender, funds, call) == Err(Unauthorized)
  {
  }

  // ---- Redeeming rewards ----

  /** Anybody may have the slashing check run, unless redeeming is paused; on the storage it does nothing else. */
  lemma RedeemingExactly(w: World, sender: Addr, funds: seq<Coin>)
    ensures var r := Transact(w, sender, funds, CallRedeemRewards); var s := w.store;
      && (r.Ok? <==> && !s.controls.redeemRewardsPaused && WorldCheckFits(w)
                     && VaultAmount(funds) <= Held(w.chain.luna, sender))
      && (r.Ok? ==> && r.value.store == s.(
                         state := s.state.(totalStaked := PoolStake(w), exchangeRate := CheckedRate(w)),
                         validatorMeta := r.value.store.validatorMeta)
                    && SyncedTo(s.validatorMeta, r.value.store.validatorMeta, s.state.validators,
                                w.chain.delegations, w.chain.delegations)
                    && OnlyFundsMove(w, r.value, sender, funds))
  {
    hide Attach, CheckSlashing, Moved, VaultAmount, CheckFits, SyncedTo, RateOf, DelegatedSum;
    AttachExactly(w.chain, sender, funds, CallRedeemRewards);
    if Attach(w.chain, sender, funds, CallRedeemRewards).Ok? {
      CheckSlashingExactly(w.store, Attach(w.chain, sender, funds, CallRedeemRewards).value);
    }
  }
}
