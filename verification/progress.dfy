/** When reconciling makes progress, and what stops it for good. */
module Progress {
  import opened Results
  import opened Decimals
  import opened Sums
  import opened Storage
  import opened Handlers
  import opened Messages
  import opened Machine
  import opened Effects
  import opened Ledger
  import opened LedgerSteps
  import opened Solvency
  import opened Frozen

  /** The batch at which a reconciliation stops. */
  function WindowEnd(s: Store, now: nat): Result<BatchId> {
    var last := s.state.lastReconciledBatchId;
    ReleasedUpTo(s.batches, last, Min(s.state.currentUndelegationBatchId + 1, last + 1 + PAGE), now)
  }

  lemma {:induction false} ExpectedStakePositive(b: map<BatchId, Batch>, lo: BatchId, hi: BatchId)
    ensures ExpectedStake(b, lo, hi) > 0 <==> exists id :: lo < id <= hi && BatchAt(b, id).undelegatedStake > 0
  {
    if hi > lo {
      ExpectedStakePositive(b, lo, hi - 1);
      if BatchAt(b, hi).undelegatedStake > 0 {
        assert exists id :: lo < id <= hi && BatchAt(b, id).undelegatedStake > 0;
      }
    }
  }

  /** Every number that a reconciliation computes from `expected` and `unaccounted` fits in 128 bits. */
  predicate ReconcileFits(reconciled: nat, expected: nat, unaccounted: nat)
    requires expected > 0
  {
    && expected < U128_LIMIT
    && unaccounted * ONE / expected < U128_LIMIT
    && reconciled + Min(unaccounted, expected) < U128_LIMIT
  }

  /** What is in the balance beyond the reconciled funds. */
  function Unaccounted(s: Store, ch: Chain): nat {
    SaturatingSub(Held(ch.luna, SELF), s.state.reconciledFundsToWithdraw)
  }

  predicate Advances(s: Store, ch: Chain) {
    ReconcileFunds(s, ch).Ok?
    && s.state.lastReconciledBatchId < ReconcileFunds(s, ch).value.store.state.lastReconciledBatchId
  }

  /** A reconciliation does not always make progress. It advances if and only if reconciling is not paused, one of the
      released batches of its window has undelegated stake, some funds have arrived that are not accounted for, and
      nothing overflows; and then it advances to the end of the window. */
  lemma ReconcileAdvancesExactly(s: Store, ch: Chain)
    requires BatchesInOrder(s)
    ensures WindowEnd(s, ch.now).Ok?
    ensures var last, end := s.state.lastReconciledBatchId, WindowEnd(s, ch.now).value;
      && (Advances(s, ch)
          <==> && !s.controls.reconcilePaused
               && Unaccounted(s, ch) > 0
               && ExpectedStake(s.batches, last, end) > 0
               && ReconcileFits(s.state.reconciledFundsToWithdraw, ExpectedStake(s.batches, last, end),
                                Unaccounted(s, ch)))
      && (Advances(s, ch) ==> ReconcileFunds(s, ch).value.store.state.lastReconciledBatchId == end)
      && (ExpectedStake(s.batches, last, end) > 0
          <==> exists id :: last < id <= end && BatchAt(s.batches, id).undelegatedStake > 0)
  {
    hide MarkReconciled, ExpectedStake, BatchInOrder;
    var last := s.state.lastReconciledBatchId;
    var bound := Min(s.state.currentUndelegationBatchId + 1, last + 1 + PAGE);
    ReleasedRunExists(s, last, bound, ch.now);
    ReleasedRun(s.batches, last, bound, ch.now);
    ExpectedStakePositive(s.batches, last, WindowEnd(s, ch.now).value);
  }

  /** A whole page of closed batches without stake. */
  ghost predicate PageWithoutStake(s: Store, last: BatchId) {
    && s.state.lastReconciledBatchId == last
    && last + PAGE < s.state.currentUndelegationBatchId
    && forall id | last < id <= last + PAGE :: BatchAt(s.batches, id).undelegatedStake == 0
  }

  lemma DispatchKeepsPageWithoutStake(s: Store, withdrawn: map<BatchId, nat>, ch: Chain, sender: Addr, funds: seq<Coin>,
                                      call: Call, last: BatchId)
    requires LedgerOk(s, withdrawn) && PageWithoutStake(s, last) && Dispatch(s, ch, sender, funds, call).Ok?
    ensures PageWithoutStake(Dispatch(s, ch, sender, funds, call).value.store, last)
  {
    hide Dispatch, TokensAddUp, OutstandingClaims, PageWithoutStake;
    DispatchIsLater(s, withdrawn, ch, sender, funds, call);
    PageIsFrozen(s, Dispatch(s, ch, sender, funds, call).value.store, last);
    DispatchDoesNotAdvance(s, withdrawn, ch, sender, funds, call, last);
  }

  lemma PageIsFrozen(s: Store, t: Store, last: BatchId)
    requires BatchesInOrder(s) && PageWithoutStake(s, last) && Later(s, t)
    ensures t.state.lastReconciledBatchId == last ==> PageWithoutStake(t, last)
  {
    hide BatchInOrder;
    forall id | last < id <= last + PAGE ensures BatchAt(t.batches, id).undelegatedStake == 0 {
      assert BatchAt(s.batches, id).undelegatedStake == 0 && id in s.batches;
    }
  }

  lemma DispatchDoesNotAdvance(s: Store, withdrawn: map<BatchId, nat>, ch: Chain, sender: Addr, funds: seq<Coin>,
                               call: Call, last: BatchId)
    requires LedgerOk(s, withdrawn) && PageWithoutStake(s, last) && Dispatch(s, ch, sender, funds, call).Ok?
    ensures Dispatch(s, ch, sender, funds, call).value.store.state.lastReconciledBatchId == last
  {
    hide CheckSlashing, DepositSynced, ReinvestSynced, RemoveSynced, RebalanceSynced, QueueSynced, UndelegateSynced,
      ReconcileFunds, WithdrawFundsToWallet, TokensAddUp, OutstandingClaims, RedeemRewards, AddValidator, UpdateConfig,
      UpdateOperationFlags, MulFloor, ExpectedStake;
    match call
    case CallQueueUndelegation(amount) => QueueEffect(s, ch, sender, amount);
    case CallUndelegate => UndelegateEffect(s, ch, sender);
    case CallReconcileFunds =>
      ReconcileEffect(s, ch);
      var t := ReconcileFunds(s, ch).value.store;
      if t != s {
        ReconcileWindow(s, t, withdrawn, ch.now, t.state.lastReconciledBatchId,
                        SaturatingSub(Held(ch.luna, SELF), s.state.reconciledFundsToWithdraw));
        ExpectedStakePositive(s.batches, last, t.state.lastReconciledBatchId);
      }
    case CallWithdraw(id) => WithdrawEffect(s, sender, id);
    case _ => OtherCallsKeepLedger(s, ch, sender, funds, call);
  }

  /** Once the ten batches after the last reconciled one are closed without stake, no run ever reconciles another
      batch. */
  lemma {:induction false} PageWithoutStakeBlocks(w: World, es: seq<Event>, last: BatchId)
    requires WorldOk(w) && PageWithoutStake(w.store, last)
    ensures Run(w, es).store.state.lastReconciledBatchId == last
    decreases |es|
  {
    hide Attach, Dispatch, ExecuteAll, ChainStep, LedgerOk;
    if es != [] {
      StepKeepsWorldOk(w, es[0]);
      if Accepted(w, es[0]) {
        var e := es[0];
        var before := Attach(w.chain, e.sender, e.funds, e.call).value;
        DispatchKeepsPageWithoutStake(w.store, w.withdrawn, before, e.sender, e.funds, e.call, last);
      }
      PageWithoutStakeBlocks(Step(w, es[0]), es[1..], last);
    }
  }
}
