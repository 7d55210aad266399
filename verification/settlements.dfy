/** Reconciling and withdrawing: exactly when they commit, and the whole of what they leave behind. */
module Settlements {
  import opened Results
  import opened Decimals
  import opened Sums
  import opened Storage
  import opened Handlers
  import opened Messages
  import opened Machine
  import opened Effects
  import opened Ledger
  import opened LedgerSteps
  import opened Solvency
  import opened Withdrawals
  import opened Progress
  import opened SlashingCheck
  import opened Administration

  // ---- Reconciling ----

  /** `end` is the last of the released batches in an unbroken row after the last reconciled one, at most ten. */
  ghost predicate Window(s: Store, now: nat, end: BatchId) {
    var last := s.state.lastReconciledBatchId;
    && last <= end <= last + 10 && end <= s.state.currentUndelegationBatchId
    && (forall id | last < id <= end :: id in s.batches && IsReleased(s.batches[id], now))
    && (end < last + 10 && end < s.state.currentUndelegationBatchId ==>
          end + 1 in s.batches && !IsReleased(s.batches[end + 1], now))
  }

  predicate IsReleased(b: Batch, now: nat) {
    match b.estReleaseTime case Some(t) => t <= now case None => false
  }

  lemma WindowIs(s: Store, now: nat)
    requires BatchesInOrder(s)
    ensures WindowEnd(s, now).Ok? && Window(s, now, WindowEnd(s, now).value)
  {
    hide BatchInOrder, ReleasedUpTo;
    var last := s.state.lastReconciledBatchId;
    var bound := Min(s.state.currentUndelegationBatchId + 1, last + 1 + PAGE);
    ReleasedRunExists(s, last, bound, now);
    ReleasedRun(s.batches, last, bound, now);
  }

  /** What has arrived beyond the reconciled funds, the attached funds included. */
  function Arrived(w: World, funds: seq<Coin>): nat {
    SaturatingSub(Held(w.chain.luna, SELF) + VaultAmount(funds), w.store.state.reconciledFundsToWithdraw)
  }

  /** The batches up to `end` have the same ratio, what has arrived over what was expected and at most one, and as much
      is set aside for them. */
  ghost predicate ReconciledTo(s: Store, t: Store, end: BatchId, arrived: nat, expected: nat) {
    var last := s.state.lastReconciledBatchId;
    && expected > 0
    && t == s.(batches := t.batches,
               state := s.state.(lastReconciledBatchId := end, reconciledFundsToWithdraw :=
                                   s.state.reconciledFundsToWithdraw + if arrived < expected then arrived else expected))
    && (forall id :: id in t.batches <==> id in s.batches)
    && (forall id | id in s.batches ::
          t.batches[id] == if last < id <= end
                           then s.batches[id].(reconciled := true, unbondingSlashingRatio :=
                                                 if arrived < expected then arrived * ONE / expected else ONE)
                           else s.batches[id])
  }

  lemma RatioIs(arrived: nat, expected: nat)
    requires expected > 0
    ensures Min(arrived * ONE / expected, ONE) == if arrived < expected then arrived * ONE / expected else ONE
  {
    FloorBounds(arrived * ONE, expected);
    if arrived < expected {
      MulMonotone(arrived, expected, ONE, ONE);
      DivMonotone(arrived * ONE, expected * ONE, expected);
      QuotientIs(expected * ONE, expected, ONE);
    } else {
      MulMonotone(expected, arrived, ONE, ONE);
      QuotientAtLeast(arrived * ONE, expected, ONE);
    }
  }

  lemma ReconcileHandled(s: Store, ch: Chain, end: BatchId)
    requires BatchesInOrder(s) && WindowEnd(s, ch.now) == Ok(end)
    ensures var r := ReconcileFunds(s, ch); var expected := ExpectedStake(s.batches, s.state.lastReconciledBatchId, end);
      && (r.Ok? <==> && !s.controls.reconcilePaused
                     && (expected > 0 ==> Unaccounted(s, ch) > 0
                                          && ReconcileFits(s.state.reconciledFundsToWithdraw, expected,
                                                           Unaccounted(s, ch))))
      && (r.Ok? ==> && r.value.messages == []
                    && if expected == 0 then r.value.store == s
                       else ReconciledTo(s, r.value.store, end, Unaccounted(s, ch), expected))
  {
    hide BatchInOrder, ExpectedStake, ReleasedUpTo;
    var expected := ExpectedStake(s.batches, s.state.lastReconciledBatchId, end);
    if expected > 0 {
      RatioIs(Unaccounted(s, ch), expected);
    }
  }

  /** A reconciliation commits exactly when it should. Without stake in its window it changes nothing, and otherwise it
      has exactly the effect of `ReconciledTo`. */
  lemma ReconcilingExactly(w: World, sender: Addr, funds: seq<Coin>) returns (end: BatchId)
    requires WorldOk(w) && External(sender)
    ensures Window(w.store, w.chain.now, end)
    ensures var r := Transact(w, sender, funds, CallReconcileFunds); var s := w.store;
      var expected := ExpectedStake(s.batches, s.state.lastReconciledBatchId, end);
      && (r.Ok? <==> && !s.controls.reconcilePaused
                     && VaultAmount(funds) <= Held(w.chain.luna, sender)
                     && (expected > 0 ==> Arrived(w, funds) > 0
                                          && ReconcileFits(s.state.reconciledFundsToWithdraw, expected,
                                                           Arrived(w, funds))))
      && (r.Ok? ==> && OnlyFundsMove(w, r.value, sender, funds)
                    && if expected == 0 then r.value.store == s
                       else ReconciledTo(s, r.value.store, end, Arrived(w, funds), expected))
  {
    hide Attach, ReconcileFunds, VaultAmount, ExpectedStake, ReleasedUpTo, BatchInOrder, TokensAddUp, OutstandingClaims,
      ChainOk, ReconciledTo, ReconcileFits, Window, WindowEnd;
    WindowIs(w.store, w.chain.now);
    end := WindowEnd(w.store, w.chain.now).value;
    AttachExactly(w.chain, sender, funds, CallReconcileFunds);
    if Attach(w.chain, sender, funds, CallReconcileFunds).Ok? {
      var before := Attach(w.chain, sender, funds, CallReconcileFunds).value;
      ReconcileHandled(w.store, before, end);
      assert Unaccounted(w.store, before) == Arrived(w, funds);
    }
  }

  // ---- Withdrawing ----

  /** The claim of `user` on batch `id` is paid and its record is gone. */
  ghost predicate WithdrawnBy(w: World, t: World, user: Addr, funds: seq<Coin>, id: BatchId)
    requires (user, id) in w.store.users
  {
    var s := w.store; var claim := RecordClaim(s, (user, id));
    && claim <= s.state.reconciledFundsToWithdraw
    && t.store == s.(users := s.users - {(user, id)},
                     state := s.state.(reconciledFundsToWithdraw := s.state.reconciledFundsToWithdraw - claim))
    && t.chain == w.chain.(luna := t.chain.luna)
    && (forall a :: Held(t.chain.luna, a) + (if a == user then VaultAmount(funds) else 0)
                    + (if a == SELF then claim else 0)
                    == Held(w.chain.luna, a) + (if a == SELF then VaultAmount(funds) else 0)
                       + Receipt(s, (user, id), a))
    && t.withdrawn == Credit(w.withdrawn, id, s.users[(user, id)].tokenAmount)
  }

  lemma WithdrawHandled(s: Store, withdrawn: map<BatchId, nat>, user: Addr, id: BatchId)
    requires ConfigOk(s.config) && LedgerOk(s, withdrawn)
    ensures var r := WithdrawFundsToWallet(s, user, id);
      && (r.Ok? <==> !s.controls.withdrawPaused && (user, id) in s.users && id <= s.state.lastReconciledBatchId)
      && (r.Ok? ==>
            var claim := RecordClaim(s, (user, id)); var fee := MulFloor(claim, s.config.protocolWithdrawFee);
            && fee <= claim <= s.state.reconciledFundsToWithdraw
            && r.value == Response(
                 s.(users := s.users - {(user, id)},
                    state := s.state.(reconciledFundsToWithdraw := s.state.reconciledFundsToWithdraw - claim)),
                 SendMessages(user, claim - fee) + SendMessages(s.config.protocolFeeContract, fee)))
  {
    hide MulFloor, OutstandingClaims, TokensAddUp, Claims.Claim, ComputeWithdrawableFunds, SendMessages;
    if (user, id) in s.users && id <= s.state.lastReconciledBatchId {
      ClaimIsComputable(s, withdrawn, user, id);
      MulFloorAtMost(RecordClaim(s, (user, id)), s.config.protocolWithdrawFee);
    }
    if WithdrawFundsToWallet(s, user, id).Ok? {
      WithdrawEffect(s, user, id);
      var c := ComputeWithdrawableFunds(s, id, user).value;
      WithdrawPaysClaim(s, WithdrawFundsToWallet(s, user, id).value.store, withdrawn, user, id, c.userWithdrawalAmount,
                        c.protocolFee);
    }
  }

  /** A withdrawal commits if and only if withdrawing is not paused and the user has a live record in a reconciled
      batch. */
  lemma WithdrawingExactly(w: World, user: Addr, funds: seq<Coin>, id: BatchId)
    requires WorldOk(w) && External(user)
    ensures var r := Transact(w, user, funds, CallWithdraw(id)); var s := w.store;
      && (r.Ok? <==> && !s.controls.withdrawPaused && (user, id) in s.users && id <= s.state.lastReconciledBatchId
                     && VaultAmount(funds) <= Held(w.chain.luna, user))
      && (r.Ok? ==> WithdrawnBy(w, r.value, user, funds, id))
  {
    hide Attach, MulFloor, LedgerOk, ConfigOk, OwnersExternal, ExecuteAll, RecordClaim, VaultAmount, SendMessages,
      WithdrawFundsToWallet, Held, Total, OpenBatch;
    var s := w.store;
    AttachExactly(w.chain, user, funds, CallWithdraw(id));
    WithdrawHandled(s, w.withdrawn, user, id);
    if Attach(w.chain, user, funds, CallWithdraw(id)).Ok? && WithdrawFundsToWallet(s, user, id).Ok? {
      var before := Attach(w.chain, user, funds, CallWithdraw(id)).value;
      var claim := RecordClaim(s, (user, id));
      var fee := MulFloor(claim, s.config.protocolWithdrawFee);
      FundsStay(w, before, user, funds);
      SendTwo(before, user, claim - fee, s.config.protocolFeeContract, fee);
    }
  }

  lemma FundsStay(w: World, before: Chain, user: Addr, funds: seq<Coin>)
    requires ChainOk(w.store, w.chain) && External(user)
    requires Moved(w.chain.luna, before.luna, user, SELF, VaultAmount(funds))
    ensures w.store.state.reconciledFundsToWithdraw <= Held(before.luna, SELF)
  {
    hide Total, VaultAmount, OpenBatch;
  }
}
