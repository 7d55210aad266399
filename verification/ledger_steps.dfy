/** Every ledger effect keeps the ledger in order. */
module LedgerSteps {
  import opened Decimals
  import opened Sums
  import opened Storage
  import opened Handlers
  import opened Claims
  import opened Effects
  import opened Ledger

  lemma SameKeepsLedger(s: Store, t: Store, withdrawn: map<BatchId, nat>)
    requires LedgerOk(s, withdrawn) && LedgerSame(s, t)
    ensures LedgerOk(t, withdrawn) && OutstandingClaims(t) == OutstandingClaims(s)
  {
  }

  // ---- Queueing ----

  lemma QueueKeepsTokens(s: Store, t: Store, withdrawn: map<BatchId, nat>, user: Addr, amount: nat, rate: nat)
    requires LedgerOk(s, withdrawn) && Queued(s, t, user, amount, rate)
    ensures TokensAddUp(t, withdrawn)
  {
    hide BatchTokens, Slice, Outstanding;
    var cur := s.state.currentUndelegationBatchId;
    UpdateRecord(s.users, (user, cur), t.users[(user, cur)], amount);
    forall id | id in t.batches
      ensures BatchTokens(t.users, id) + Held(withdrawn, id) == t.batches[id].undelegatedTokens
    {
      if id != cur {
        SameSliceSameClaims(s.users, t.users, id, NO_BATCH);
      }
    }
  }

  lemma QueueKeepsClaims(s: Store, t: Store, withdrawn: map<BatchId, nat>, user: Addr, amount: nat, rate: nat)
    requires LedgerOk(s, withdrawn) && Queued(s, t, user, amount, rate)
    ensures OutstandingClaims(t) == OutstandingClaims(s)
  {
    hide BatchTokens, Slice, Outstanding;
    var cur := s.state.currentUndelegationBatchId;
    UpdateRecord(s.users, (user, cur), t.users[(user, cur)], amount);
    OutstandingFrame(s.batches, s.users, t.batches, t.users, 0, s.state.lastReconciledBatchId);
  }

  lemma QueueKeepsLedger(s: Store, t: Store, withdrawn: map<BatchId, nat>, user: Addr, amount: nat, rate: nat)
    requires LedgerOk(s, withdrawn) && Queued(s, t, user, amount, rate)
    ensures LedgerOk(t, withdrawn) && OutstandingClaims(t) == OutstandingClaims(s)
  {
    hide TokensAddUp, OutstandingClaims;
    QueueKeepsTokens(s, t, withdrawn, user, amount, rate);
    QueueKeepsClaims(s, t, withdrawn, user, amount, rate);
  }

  // ---- Undelegating ----

  lemma UndelegateKeepsTokens(s: Store, t: Store, withdrawn: map<BatchId, nat>, now: nat, release: nat, rate: nat)
    requires LedgerOk(s, withdrawn) && Undelegated(s, t, now, release, rate)
    ensures TokensAddUp(t, withdrawn)
  {
    hide BatchTokens, Slice, Outstanding;
    NoRecords(s.users, s.state.currentUndelegationBatchId + 1);
  }

  lemma UndelegateKeepsClaims(s: Store, t: Store, withdrawn: map<BatchId, nat>, now: nat, release: nat, rate: nat)
    requires LedgerOk(s, withdrawn) && Undelegated(s, t, now, release, rate)
    ensures OutstandingClaims(t) == OutstandingClaims(s)
  {
    hide BatchTokens, Slice, Outstanding;
    OutstandingFrame(s.batches, s.users, t.batches, t.users, 0, s.state.lastReconciledBatchId);
  }

  lemma UndelegateKeepsLedger(s: Store, t: Store, withdrawn: map<BatchId, nat>, now: nat, release: nat, rate: nat)
    requires LedgerOk(s, withdrawn) && Undelegated(s, t, now, release, rate)
    ensures LedgerOk(t, withdrawn) && OutstandingClaims(t) == OutstandingClaims(s)
  {
    hide TokensAddUp, OutstandingClaims;
    UndelegateKeepsTokens(s, t, withdrawn, now, release, rate);
    UndelegateKeepsClaims(s, t, withdrawn, now, release, rate);
  }

  // ---- Reconciling ----

  /** With the registry in order the run always exists, so loading a batch never fails. */
  lemma {:induction false} ReleasedRunExists(s: Store, last: BatchId, bound: BatchId, now: nat)
    requires BatchesInOrder(s) && bound <= s.state.currentUndelegationBatchId + 1
    ensures ReleasedUpTo(s.batches, last, bound, now).Ok?
    decreases bound - last
  {
    if last + 1 < bound {
      ReleasedRunExists(s, last + 1, bound, now);
    }
  }

  /** The claims on one batch when every unit of its stake is worth `ratio`. */
  lemma BatchClaimsAtMost(s: Store, withdrawn: map<BatchId, nat>, id: BatchId, ratio: nat)
    requires LedgerOk(s, withdrawn) && ratio <= ONE
    requires s.state.lastReconciledBatchId < id < s.state.currentUndelegationBatchId
    ensures BatchClaims(s.users, id, s.batches[id].(unbondingSlashingRatio := ratio, reconciled := true))
         <= MulFloor(s.batches[id].undelegatedStake, ratio)
  {
    hide MulFloor, Outstanding;
    assert Held(withdrawn, id) == 0;
    TotalClaimsAtMost(Slice(s.users, id), s.batches[id].undelegationEr, ratio);
  }

  lemma {:induction false} WindowClaimsAtMost(s: Store, t: Store, withdrawn: map<BatchId, nat>, lo: BatchId, hi: BatchId,
                                              end: BatchId, ratio: nat)
    requires LedgerOk(s, withdrawn) && ratio <= ONE && t.users == s.users
    requires s.state.lastReconciledBatchId == lo <= hi <= end < s.state.currentUndelegationBatchId
    requires t.batches == MarkReconciled(s.batches, lo, end, ratio)
    ensures Outstanding(t.batches, t.users, lo, hi) <= MulFloor(ExpectedStake(s.batches, lo, hi), ratio)
  {
    hide MulFloor, BatchClaims, LedgerOk;
    if hi > lo {
      WindowClaimsAtMost(s, t, withdrawn, lo, hi - 1, end, ratio);
      BatchClaimsAtMost(s, withdrawn, hi, ratio);
      assert hi in s.batches by { assert LedgerOk(s, withdrawn); InRegistry(s, withdrawn, hi); }
      MulFloorSplit(ExpectedStake(s.batches, lo, hi - 1), s.batches[hi].undelegatedStake, ratio);
    }
  }

  lemma InRegistry(s: Store, withdrawn: map<BatchId, nat>, id: BatchId)
    requires LedgerOk(s, withdrawn) && 1 <= id <= s.state.currentUndelegationBatchId
    ensures id in s.batches && BatchInOrder(id, s.batches[id], s.state.lastReconciledBatchId,
                                            s.state.currentUndelegationBatchId)
  {
  }

  /** The share of the funds that arrived never exceeds what arrived, nor what was expected. */
  lemma ShareAtMost(unaccounted: nat, expected: nat)
    requires expected > 0
    ensures MulFloor(expected, Min(unaccounted * ONE / expected, ONE)) <= Min(unaccounted, expected)
  {
    var ratio := Min(unaccounted * ONE / expected, ONE);
    FloorBounds(unaccounted * ONE, expected);
    MulMonotone(expected, expected, ratio, unaccounted * ONE / expected);
    DivMonotone(expected * ratio, unaccounted * ONE, ONE);
    MulFloorAtMost(expected, ratio);
  }

  lemma ReconcileWindow(s: Store, t: Store, withdrawn: map<BatchId, nat>, now: nat, end: BatchId, unaccounted: nat)
    requires LedgerOk(s, withdrawn) && Reconciled(s, t, now, end, unaccounted)
    ensures s.state.lastReconciledBatchId < end < s.state.currentUndelegationBatchId
    ensures end <= s.state.lastReconciledBatchId + PAGE
    ensures forall id | s.state.lastReconciledBatchId < id <= end :: id in s.batches && Released(s.batches[id], now)
  {
    hide Outstanding, TokensAddUp, MulFloor;
    var last := s.state.lastReconciledBatchId;
    var bound := Min(s.state.currentUndelegationBatchId + 1, last + 1 + PAGE);
    ReleasedRun(s.batches, last, bound, now);
    assert ExpectedStake(s.batches, last, last) == 0;
    assert end in s.batches && Released(s.batches[end], now);
  }

  lemma ReconcileKeepsTokens(s: Store, t: Store, withdrawn: map<BatchId, nat>, now: nat, end: BatchId, unaccounted: nat)
    requires LedgerOk(s, withdrawn) && Reconciled(s, t, now, end, unaccounted)
    ensures BatchesInOrder(t) && RecordsInOrder(t) && TokensAddUp(t, withdrawn)
  {
    hide Outstanding, BatchTokens, MulFloor;
    ReconcileWindow(s, t, withdrawn, now, end, unaccounted);
  }

  lemma ReconcileKeepsClaims(s: Store, t: Store, withdrawn: map<BatchId, nat>, now: nat, end: BatchId, unaccounted: nat)
    requires LedgerOk(s, withdrawn) && Reconciled(s, t, now, end, unaccounted)
    ensures OutstandingClaims(t) <= t.state.reconciledFundsToWithdraw
    ensures OutstandingClaims(t)
         == OutstandingClaims(s) + Outstanding(t.batches, t.users, s.state.lastReconciledBatchId, end)
  {
    hide MulFloor, Outstanding, BatchClaims, ExpectedStake, TokensAddUp;
    var last := s.state.lastReconciledBatchId;
    var expected := ExpectedStake(s.batches, last, end);
    var ratio := Min(unaccounted * ONE / expected, ONE);
    ReconcileWindow(s, t, withdrawn, now, end, unaccounted);
    OutstandingSplit(t.batches, t.users, 0, last, end);
    OutstandingFrame(s.batches, s.users, t.batches, t.users, 0, last);
    WindowClaimsAtMost(s, t, withdrawn, last, end, end, ratio);
    ShareAtMost(unaccounted, expected);
  }

  lemma ReconcileKeepsLedger(s: Store, t: Store, withdrawn: map<BatchId, nat>, now: nat, end: BatchId, unaccounted: nat)
    requires LedgerOk(s, withdrawn) && Reconciled(s, t, now, end, unaccounted)
    ensures LedgerOk(t, withdrawn)
  {
    hide BatchesInOrder, RecordsInOrder, TokensAddUp, OutstandingClaims, Reconciled;
    ReconcileKeepsTokens(s, t, withdrawn, now, end, unaccounted);
    ReconcileKeepsClaims(s, t, withdrawn, now, end, unaccounted);
  }

  // ---- Withdrawing ----

  function RecordClaim(s: Store, k: (Addr, BatchId)): nat
    requires k in s.users
  {
    var b := BatchAt(s.batches, k.1);
    Claim(s.users[k].tokenAmount, b.undelegationEr, b.unbondingSlashingRatio)
  }

  lemma WithdrawKeepsTokens(s: Store, t: Store, withdrawn: map<BatchId, nat>, user: Addr, id: BatchId, paid: nat,
                            fee: nat)
    requires LedgerOk(s, withdrawn) && Withdrawn(s, t, user, id, paid, fee)
    ensures TokensAddUp(t, Credit(withdrawn, id, s.users[(user, id)].tokenAmount))
  {
    hide BatchTokens, Slice, Outstanding, MulFloor;
    RemoveRecord(s.users, (user, id), NO_BATCH);
    forall i | i in s.batches && i != id ensures BatchTokens(t.users, i) == BatchTokens(s.users, i) {
      SameSliceSameClaims(s.users, t.users, i, NO_BATCH);
    }
  }

  /** A withdrawal pays exactly the claim of the record, out of funds that cover it. */
  lemma WithdrawPaysClaim(s: Store, t: Store, withdrawn: map<BatchId, nat>, user: Addr, id: BatchId, paid: nat,
                          fee: nat)
    requires LedgerOk(s, withdrawn) && Withdrawn(s, t, user, id, paid, fee)
    requires s.config.protocolWithdrawFee <= WITHDRAW_FEE_CAP
    ensures paid + fee == RecordClaim(s, (user, id)) <= s.state.reconciledFundsToWithdraw
    ensures t.state.reconciledFundsToWithdraw == s.state.reconciledFundsToWithdraw - (paid + fee)
    ensures OutstandingClaims(t) == OutstandingClaims(s) - (paid + fee)
  {
    hide Slice, Outstanding, MulFloor, TokensAddUp;
    var claim := RecordClaim(s, (user, id));
    MulFloorAtMost(claim, s.config.protocolWithdrawFee);
    OutstandingRemove(s.batches, s.users, 0, s.state.lastReconciledBatchId, (user, id));
  }

  lemma WithdrawKeepsLedger(s: Store, t: Store, withdrawn: map<BatchId, nat>, user: Addr, id: BatchId, paid: nat,
                            fee: nat)
    requires LedgerOk(s, withdrawn) && Withdrawn(s, t, user, id, paid, fee)
    requires s.config.protocolWithdrawFee <= WITHDRAW_FEE_CAP
    ensures LedgerOk(t, Credit(withdrawn, id, s.users[(user, id)].tokenAmount))
  {
    hide TokensAddUp, OutstandingClaims, MulFloor;
    WithdrawKeepsTokens(s, t, withdrawn, user, id, paid, fee);
    WithdrawPaysClaim(s, t, withdrawn, user, id, paid, fee);
  }
}
