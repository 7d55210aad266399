/** What each call leaves of the undelegation ledger: batches, records, batch counters and reconciled funds. */
module Effects {
  import opened Results
  import opened Decimals
  import opened Sums
  import opened Storage
  import opened Handlers
  import opened Machine

  /** Nothing in the undelegation ledger changes. */
  ghost predicate LedgerSame(s: Store, t: Store) {
    && t.batches == s.batches && t.users == s.users
    && t.state.currentUndelegationBatchId == s.state.currentUndelegationBatchId
    && t.state.lastReconciledBatchId == s.state.lastReconciledBatchId
    && t.state.reconciledFundsToWithdraw == s.state.reconciledFundsToWithdraw
  }

  function QueuedAmount(s: Store, user: Addr, id: BatchId): nat {
    if (user, id) in s.users then s.users[(user, id)].tokenAmount else 0
  }

  /** `amount` tokens of `user` join the current batch, which takes on the rate `rate`. */
  ghost predicate Queued(s: Store, t: Store, user: Addr, amount: nat, rate: nat) {
    var id := s.state.currentUndelegationBatchId;
    && id in s.batches
    && t.batches == s.batches[id := s.batches[id].(
                       undelegatedTokens := s.batches[id].undelegatedTokens + amount, undelegationEr := rate)]
    && (user, id) in t.users
    && t.users == s.users[(user, id) := t.users[(user, id)]]
    && t.users[(user, id)].tokenAmount == QueuedAmount(s, user, id) + amount
    && t.users[(user, id)].batchId == (if (user, id) in s.users then s.users[(user, id)].batchId else id)
    && t.state.currentUndelegationBatchId == id
    && t.state.lastReconciledBatchId == s.state.lastReconciledBatchId
    && t.state.reconciledFundsToWithdraw == s.state.reconciledFundsToWithdraw
  }

  /** The current batch is priced at `rate` and closed until `release`, and a new one is opened. */
  ghost predicate Undelegated(s: Store, t: Store, now: nat, release: nat, rate: nat) {
    var id := s.state.currentUndelegationBatchId;
    && id in s.batches
    && s.batches[id].undelegatedTokens * rate < U128_LIMIT
    && s.batches[id].undelegatedTokens > 0
    && t.batches == s.batches[id := s.batches[id].(
                       estReleaseTime := Some(release), undelegationEr := rate,
                       undelegatedStake := MulFloor(s.batches[id].undelegatedTokens, rate))]
                             [id + 1 := NewBatch(now, rate)]
    && t.users == s.users
    && t.state.currentUndelegationBatchId == id + 1
    && t.state.lastReconciledBatchId == s.state.lastReconciledBatchId
    && t.state.reconciledFundsToWithdraw == s.state.reconciledFundsToWithdraw
  }

  /** The batches up to `end` share the funds that arrived for them. */
  ghost predicate Reconciled(s: Store, t: Store, now: nat, end: BatchId, unaccounted: nat) {
    var last := s.state.lastReconciledBatchId;
    var bound := Min(s.state.currentUndelegationBatchId + 1, last + 1 + PAGE);
    var expected := ExpectedStake(s.batches, last, end);
    && ReleasedUpTo(s.batches, last, bound, now) == Ok(end)
    && expected > 0 && unaccounted > 0
    && t.batches == MarkReconciled(s.batches, last, end, Min(unaccounted * ONE / expected, ONE))
    && t.users == s.users
    && t.state.currentUndelegationBatchId == s.state.currentUndelegationBatchId
    && t.state.lastReconciledBatchId == end
    && t.state.reconciledFundsToWithdraw == s.state.reconciledFundsToWithdraw + Min(unaccounted, expected)
  }

  /** The record of `user` in a reconciled batch is paid and removed. */
  ghost predicate Withdrawn(s: Store, t: Store, user: Addr, id: BatchId, paid: nat, fee: nat) {
    && id in s.batches && s.batches[id].reconciled && (user, id) in s.users
    && paid == SaturatingSub(MulFloor(MulFloor(s.users[(user, id)].tokenAmount, s.batches[id].undelegationEr),
                                      s.batches[id].unbondingSlashingRatio), fee)
    && fee == MulFloor(MulFloor(MulFloor(s.users[(user, id)].tokenAmount, s.batches[id].undelegationEr),
                                s.batches[id].unbondingSlashingRatio), s.config.protocolWithdrawFee)
    && t.batches == s.batches
    && t.users == s.users - {(user, id)}
    && t.state == s.state.(reconciledFundsToWithdraw :=
                             SaturatingSub(SaturatingSub(s.state.reconciledFundsToWithdraw, paid), fee))
  }

  // ---- Each handler's effect ----

  lemma CheckSlashingEffect(s: Store, ch: Chain)
    requires CheckSlashing(s, ch).Ok?
    ensures var t := CheckSlashing(s, ch).value;
      && t == s.(validatorMeta := t.validatorMeta,
                 state := s.state.(totalStaked := DelegatedSum(s.state.validators, ch.delegations),
                                   exchangeRate := t.state.exchangeRate))
  {
  }

  lemma DepositEffect(s: Store, ch: Chain, sender: Addr, amount: nat)
    requires DepositSynced(s, ch, sender, amount).Ok?
    ensures LedgerSame(s, DepositSynced(s, ch, sender, amount).value.store)
  {
  }

  lemma ReinvestEffect(s: Store, ch: Chain, sender: Addr)
    requires ReinvestSynced(s, ch, sender).Ok?
    ensures LedgerSame(s, ReinvestSynced(s, ch, sender).value.store)
  {
  }

  lemma PoolEffect(s: Store, ch: Chain, amount: nat, v: Addr, redel: Addr)
    ensures RemoveSynced(s, ch, v, redel).Ok? ==> LedgerSame(s, RemoveSynced(s, ch, v, redel).value.store)
    ensures RebalanceSynced(s, ch, amount, v, redel).Ok?
      ==> LedgerSame(s, RebalanceSynced(s, ch, amount, v, redel).value.store)
  {
  }

  predicate TouchesLedger(call: Call) {
    call.CallQueueUndelegation? || call.CallUndelegate? || call.CallReconcileFunds? || call.CallWithdraw?
  }

  /** Calls that neither queue, undelegate, reconcile nor withdraw leave the ledger alone. */
  lemma OtherCallsKeepLedger(s: Store, ch: Chain, sender: Addr, funds: seq<Coin>, call: Call)
    requires !TouchesLedger(call) && Dispatch(s, ch, sender, funds, call).Ok?
    ensures LedgerSame(s, Dispatch(s, ch, sender, funds, call).value.store)
  {
    hide CheckSlashing, DepositSynced, ReinvestSynced, RemoveSynced, RebalanceSynced;
    if CheckSlashing(s, ch).Ok? {
      var s1 := CheckSlashing(s, ch).value;
      CheckSlashingEffect(s, ch);
      match call
      case CallDeposit => DepositEffect(s1, ch, sender, SingleVaultFund(funds).value);
      case CallReinvest => ReinvestEffect(s1, ch, sender);
      case CallRemoveValidator(v, redel) => PoolEffect(s1, ch, 0, v, redel);
      case CallRebalancePool(amount, v, redel) => PoolEffect(s1, ch, amount, v, redel);
      case _ =>
    }
  }

  lemma QueueSyncedEffect(s: Store, user: Addr, amount: nat)
    requires QueueSynced(s, user, amount).Ok?
    ensures var r := QueueSynced(s, user, amount).value;
      r.messages == [] && r.store.state == s.state && Queued(s, r.store, user, amount, s.state.exchangeRate)
  {
  }

  lemma QueueEffect(s: Store, ch: Chain, user: Addr, amount: nat)
    requires QueueUndelegation(s, ch, user, amount).Ok?
    ensures CheckSlashing(s, ch).Ok?
    ensures var r := QueueUndelegation(s, ch, user, amount).value;
      r.messages == [] && Queued(s, r.store, user, amount, CheckSlashing(s, ch).value.state.exchangeRate)
  {
    hide CheckSlashing, QueueSynced;
    CheckSlashingEffect(s, ch);
    QueueSyncedEffect(CheckSlashing(s, ch).value, user, amount);
  }

  lemma UndelegateSyncedEffect(s: Store, ch: Chain, sender: Addr)
    requires UndelegateSynced(s, ch, sender).Ok?
    ensures var t := UndelegateSynced(s, ch, sender).value.store;
      Undelegated(s, t, ch.now, PlusSeconds(ch.now, s.config.unbondingPeriod), s.state.exchangeRate)
  {
  }

  lemma UndelegateEffect(s: Store, ch: Chain, sender: Addr)
    requires UndelegateStakeHandler(s, ch, sender).Ok?
    ensures CheckSlashing(s, ch).Ok?
    ensures var t := UndelegateStakeHandler(s, ch, sender).value.store;
      Undelegated(s, t, ch.now, PlusSeconds(ch.now, s.config.unbondingPeriod),
                  CheckSlashing(s, ch).value.state.exchangeRate)
  {
    hide CheckSlashing, UndelegateSynced;
    CheckSlashingEffect(s, ch);
    UndelegateSyncedEffect(CheckSlashing(s, ch).value, ch, sender);
  }

  lemma ReconcileEffect(s: Store, ch: Chain)
    requires ReconcileFunds(s, ch).Ok?
    ensures var r := ReconcileFunds(s, ch).value;
      && r.messages == []
      && (r.store == s
          || Reconciled(s, r.store, ch.now, r.store.state.lastReconciledBatchId,
                        SaturatingSub(Held(ch.luna, SELF), s.state.reconciledFundsToWithdraw)))
  {
  }

  lemma WithdrawEffect(s: Store, user: Addr, id: BatchId)
    requires WithdrawFundsToWallet(s, user, id).Ok?
    ensures ComputeWithdrawableFunds(s, id, user).Ok?
    ensures var r := WithdrawFundsToWallet(s, user, id).value;
      var c := ComputeWithdrawableFunds(s, id, user).value;
      && Withdrawn(s, r.store, user, id, c.userWithdrawalAmount, c.protocolFee)
      && r.messages == SendMessages(user, c.userWithdrawalAmount)
                       + SendMessages(s.config.protocolFeeContract, c.protocolFee)
  {
  }
}
