/** Once a batch is undelegated its price never changes, once it is reconciled nothing about it does, and a record
    that is gone stays gone. So claims do not depend on when they are paid, and none is paid twice. */
module Frozen {
  import opened Decimals
  import opened Sums
  import opened Storage
  import opened Handlers
  import opened Messages
  import opened Machine
  import opened Claims
  import opened Effects
  import opened Ledger
  import opened LedgerSteps
  import opened Solvency

  ghost predicate SamePrice(b: Batch, c: Batch) {
    && c.undelegatedTokens == b.undelegatedTokens
    && c.undelegationEr == b.undelegationEr
    && c.undelegatedStake == b.undelegatedStake
    && c.estReleaseTime == b.estReleaseTime
  }

  /** `t` is a later state of `s`. */
  ghost predicate Later(s: Store, t: Store) {
    && s.state.currentUndelegationBatchId <= t.state.currentUndelegationBatchId
    && s.state.lastReconciledBatchId <= t.state.lastReconciledBatchId
    && (forall id | id in s.batches && id < s.state.currentUndelegationBatchId ::
          id in t.batches && SamePrice(s.batches[id], t.batches[id]))
    && (forall id | id in s.batches && id <= s.state.lastReconciledBatchId ::
          id in t.batches && t.batches[id] == s.batches[id])
    && (forall k | k in t.users && k.1 < s.state.currentUndelegationBatchId ::
          k in s.users && t.users[k] == s.users[k])
  }

  lemma LaterTransitive(s: Store, t: Store, u: Store)
    requires BatchesInOrder(s) && Later(s, t) && Later(t, u)
    ensures Later(s, u)
  {
  }

  lemma QueueIsLater(s: Store, t: Store, user: Addr, amount: nat, rate: nat)
    requires BatchesInOrder(s) && Queued(s, t, user, amount, rate)
    ensures Later(s, t)
  {
  }

  lemma UndelegateIsLater(s: Store, t: Store, now: nat, release: nat, rate: nat)
    requires BatchesInOrder(s) && Undelegated(s, t, now, release, rate)
    ensures Later(s, t)
  {
    hide MulFloor;
  }

  lemma ReconcileIsLater(s: Store, t: Store, withdrawn: map<BatchId, nat>, now: nat, end: BatchId, unaccounted: nat)
    requires LedgerOk(s, withdrawn) && Reconciled(s, t, now, end, unaccounted)
    ensures Later(s, t)
  {
    hide Outstanding, TokensAddUp, ExpectedStake;
    ReconcileWindow(s, t, withdrawn, now, end, unaccounted);
  }

  lemma WithdrawIsLater(s: Store, t: Store, user: Addr, id: BatchId, paid: nat, fee: nat)
    requires BatchesInOrder(s) && Withdrawn(s, t, user, id, paid, fee)
    ensures Later(s, t)
  {
    hide MulFloor;
  }

  lemma DispatchIsLater(s: Store, withdrawn: map<BatchId, nat>, ch: Chain, sender: Addr, funds: seq<Coin>, call: Call)
    requires LedgerOk(s, withdrawn) && Dispatch(s, ch, sender, funds, call).Ok?
    ensures Later(s, Dispatch(s, ch, sender, funds, call).value.store)
  {
    hide CheckSlashing, DepositSynced, ReinvestSynced, RemoveSynced, RebalanceSynced, QueueSynced, UndelegateSynced,
      ReconcileFunds, WithdrawFundsToWallet, TokensAddUp, OutstandingClaims, Queued, Undelegated, Reconciled, Withdrawn,
      RedeemRewards, AddValidator, UpdateConfig, UpdateOperationFlags;
    var t := Dispatch(s, ch, sender, funds, call).value.store;
    match call
    case CallQueueUndelegation(amount) =>
      QueueEffect(s, ch, sender, amount);
      QueueIsLater(s, t, sender, amount, CheckSlashing(s, ch).value.state.exchangeRate);
    case CallUndelegate =>
      UndelegateEffect(s, ch, sender);
      UndelegateIsLater(s, t, ch.now, PlusSeconds(ch.now, s.config.unbondingPeriod),
                        CheckSlashing(s, ch).value.state.exchangeRate);
    case CallReconcileFunds =>
      ReconcileEffect(s, ch);
      if t != s {
        ReconcileIsLater(s, t, withdrawn, ch.now, t.state.lastReconciledBatchId,
                         SaturatingSub(Held(ch.luna, SELF), s.state.reconciledFundsToWithdraw));
      }
    case CallWithdraw(id) =>
      WithdrawEffect(s, sender, id);
      var c := ComputeWithdrawableFunds(s, id, sender).value;
      WithdrawIsLater(s, t, sender, id, c.userWithdrawalAmount, c.protocolFee);
    case _ =>
      OtherCallsKeepLedger(s, ch, sender, funds, call);
  }

  lemma StepIsLater(w: World, e: Event)
    requires WorldOk(w)
    ensures Later(w.store, Step(w, e).store)
  {
    hide Attach, Dispatch, ExecuteAll, TokensAddUp, OutstandingClaims, ChainStep;
    if Accepted(w, e) {
      DispatchIsLater(w.store, w.withdrawn, Attach(w.chain, e.sender, e.funds, e.call).value, e.sender, e.funds, e.call);
    }
  }

  /** Over any run, priced batches keep their price, reconciled batches stay as they are, and records of closed
      batches can only disappear. */
  lemma {:induction false} RunFreezesBatches(w: World, es: seq<Event>)
    requires WorldOk(w)
    ensures Later(w.store, Run(w, es).store)
    decreases |es|
  {
    hide Step, Later, LedgerOk;
    if es != [] {
      StepKeepsWorldOk(w, es[0]);
      StepIsLater(w, es[0]);
      RunFreezesBatches(Step(w, es[0]), es[1..]);
      LaterThrough(w, Step(w, es[0]).store, Run(w, es).store);
    } else {
      LaterReflexive(w.store);
    }
  }

  lemma LaterReflexive(s: Store)
    ensures Later(s, s)
  {
  }

  lemma LaterThrough(w: World, t: Store, u: Store)
    requires WorldOk(w) && Later(w.store, t) && Later(t, u)
    ensures Later(w.store, u)
  {
    hide Later, ChainOk, ConfigOk, TokensAddUp, OutstandingClaims;
    LaterTransitive(w.store, t, u);
  }

  /** The claim of a record in a reconciled batch is the same at every later moment at which the record still exists:
      it does not depend on the order of withdrawals. */
  lemma ClaimIsFrozen(w: World, es: seq<Event>, k: (Addr, BatchId))
    requires WorldOk(w) && k.1 <= w.store.state.lastReconciledBatchId
    requires k in Run(w, es).store.users
    ensures k in w.store.users
    ensures RecordClaim(Run(w, es).store, k) == RecordClaim(w.store, k)
  {
    hide Run, TokensAddUp, OutstandingClaims, Claim;
    RunFreezesBatches(w, es);
    RunIsSolvent(w, es);
  }

  /** The price a record was undelegated at never changes once its batch is closed, whatever is withdrawn meanwhile. */
  lemma PriceIsFrozen(w: World, es: seq<Event>, id: BatchId)
    requires WorldOk(w) && 1 <= id < w.store.state.currentUndelegationBatchId
    ensures id in w.store.batches && id in Run(w, es).store.batches
    ensures SamePrice(w.store.batches[id], Run(w, es).store.batches[id])
  {
    hide Run, TokensAddUp, OutstandingClaims;
    RunFreezesBatches(w, es);
  }

  /** Each record is paid at most once: after an accepted withdrawal no run brings the record back, and no later
      withdrawal of it is accepted. */
  lemma PaidAtMostOnce(w: World, user: Addr, funds: seq<Coin>, id: BatchId, es: seq<Event>, moreFunds: seq<Coin>)
    requires WorldOk(w) && Accepted(w, Tx(user, funds, CallWithdraw(id)))
    ensures var end := Run(Step(w, Tx(user, funds, CallWithdraw(id))), es);
      (user, id) !in end.store.users && !Accepted(end, Tx(user, moreFunds, CallWithdraw(id)))
  {
    hide Attach, ExecuteAll, Run, WithdrawFundsToWallet, TokensAddUp, OutstandingClaims, MulFloor, ChainOk;
    var e := Tx(user, funds, CallWithdraw(id));
    var w1 := Step(w, e);
    WithdrawEffect(w.store, user, id);
    StepKeepsWorldOk(w, e);
    RunFreezesBatches(w1, es);
    var end := Run(w1, es);
    NoRecordNoWithdrawal(end.store, user, id);
  }

  lemma NoRecordNoWithdrawal(s: Store, user: Addr, id: BatchId)
    requires (user, id) !in s.users
    ensures WithdrawFundsToWallet(s, user, id).Err?
  {
  }
}
