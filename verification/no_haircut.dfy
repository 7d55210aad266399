/** Without slashing the funds for every released batch are there when it is reconciled, so no batch is ever paid out
    at less than its full stake. */
module NoHaircut {
  import opened Decimals
  import opened Sums
  import opened Storage
  import opened Handlers
  import opened Effects
  import opened Ledger
  import opened LedgerSteps

  /** The stake of the batches after `lo` up to and including `hi` that is no longer unbonding. */
  function ReleasedStake(b: map<BatchId, Batch>, unbonding: map<BatchId, nat>, lo: BatchId, hi: BatchId): nat {
    if hi <= lo then 0
    else ReleasedStake(b, unbonding, lo, hi - 1) + if hi in unbonding then 0 else BatchAt(b, hi).undelegatedStake
  }

  /** What is still unbonding belongs to closed batches whose release time has not come, and is all of their stake. */
  ghost predicate UnbondingOk(s: Store, unbonding: map<BatchId, nat>, now: nat) {
    forall id | id in unbonding ::
      && s.state.lastReconciledBatchId < id < s.state.currentUndelegationBatchId
      && id in s.batches
      && s.batches[id].estReleaseTime.Some? && s.batches[id].estReleaseTime.value > now
      && unbonding[id] == s.batches[id].undelegatedStake
  }

  /** Every batch is worth its full stake. */
  ghost predicate FullRatios(s: Store) {
    forall id | id in s.batches :: s.batches[id].unbondingSlashingRatio == ONE
  }

  /** The balance covers the reconciled funds and the stake of all released batches. */
  ghost predicate FundsArrived(s: Store, balance: nat, unbonding: map<BatchId, nat>) {
    s.state.reconciledFundsToWithdraw
    + ReleasedStake(s.batches, unbonding, s.state.lastReconciledBatchId,
                    SaturatingSub(s.state.currentUndelegationBatchId, 1))
    <= balance
  }

  ghost predicate FundsOk(s: Store, balance: nat, unbonding: map<BatchId, nat>, now: nat) {
    && BatchesInOrder(s) && UnbondingOk(s, unbonding, now) && FullRatios(s) && FundsArrived(s, balance, unbonding)
  }

  // ---- Sums ----

  lemma {:induction false} ReleasedStakeFrame(b: map<BatchId, Batch>, c: map<BatchId, Batch>, u: map<BatchId, nat>,
                                              v: map<BatchId, nat>, lo: BatchId, hi: BatchId)
    requires forall id | lo < id <= hi ::
               BatchAt(c, id).undelegatedStake == BatchAt(b, id).undelegatedStake && (id in v <==> id in u)
    ensures ReleasedStake(c, v, lo, hi) == ReleasedStake(b, u, lo, hi)
  {
    if hi > lo {
      ReleasedStakeFrame(b, c, u, v, lo, hi - 1);
    }
  }

  lemma {:induction false} ReleasedStakeSplit(b: map<BatchId, Batch>, u: map<BatchId, nat>, lo: BatchId, mid: BatchId,
                                              hi: BatchId)
    requires lo <= mid <= hi
    ensures ReleasedStake(b, u, lo, hi) == ReleasedStake(b, u, lo, mid) + ReleasedStake(b, u, mid, hi)
  {
    if hi > mid {
      ReleasedStakeSplit(b, u, lo, mid, hi - 1);
    }
  }

  lemma {:induction false} ReleasedStakeAll(b: map<BatchId, Batch>, u: map<BatchId, nat>, lo: BatchId, hi: BatchId)
    requires forall id | lo < id <= hi :: id !in u
    ensures ReleasedStake(b, u, lo, hi) == ExpectedStake(b, lo, hi)
  {
    if hi > lo {
      ReleasedStakeAll(b, u, lo, hi - 1);
    }
  }

  lemma {:induction false} ReleasedStakePayOut(b: map<BatchId, Batch>, u: map<BatchId, nat>, lo: BatchId, hi: BatchId,
                                               id: BatchId)
    requires lo < id <= hi && id in u
    ensures ReleasedStake(b, u - {id}, lo, hi) == ReleasedStake(b, u, lo, hi) + BatchAt(b, id).undelegatedStake
  {
    if id == hi {
      ReleasedStakeFrame(b, b, u, u - {id}, lo, hi - 1);
    } else {
      ReleasedStakePayOut(b, u, lo, hi - 1, id);
    }
  }

  // ---- Each effect ----

  lemma SameKeepsFunds(s: Store, t: Store, balance: nat, more: nat, unbonding: map<BatchId, nat>, now: nat)
    requires FundsOk(s, balance, unbonding, now) && LedgerSame(s, t) && balance <= more
    ensures FundsOk(t, more, unbonding, now)
  {
  }

  lemma QueueKeepsFunds(s: Store, t: Store, balance: nat, more: nat, unbonding: map<BatchId, nat>, now: nat, user: Addr,
                        amount: nat, rate: nat)
    requires FundsOk(s, balance, unbonding, now) && Queued(s, t, user, amount, rate) && balance <= more
    ensures FundsOk(t, more, unbonding, now)
  {
    hide ReleasedStake;
    ReleasedStakeFrame(s.batches, t.batches, unbonding, unbonding, s.state.lastReconciledBatchId,
                       s.state.currentUndelegationBatchId - 1);
  }

  /** The unbonding stake after a batch was undelegated: all of it, unless there was none. */
  ghost predicate Unbonds(unbonding: map<BatchId, nat>, after: map<BatchId, nat>, id: BatchId, stake: nat) {
    after == if stake == 0 then unbonding else unbonding[id := stake]
  }

  lemma UndelegateShape(s: Store, t: Store, now: nat, release: nat, rate: nat)
    requires BatchesInOrder(s) && FullRatios(s) && Undelegated(s, t, now, release, rate)
    ensures BatchesInOrder(t) && FullRatios(t)
  {
    hide MulFloor;
  }

  lemma UndelegateKeepsFunds(s: Store, t: Store, balance: nat, more: nat, unbonding: map<BatchId, nat>,
                             after: map<BatchId, nat>, now: nat, release: nat, rate: nat)
    requires FundsOk(s, balance, unbonding, now) && Undelegated(s, t, now, release, rate) && balance <= more
    requires now < release
    requires Unbonds(unbonding, after, s.state.currentUndelegationBatchId,
                     t.batches[s.state.currentUndelegationBatchId].undelegatedStake)
    ensures FundsOk(t, more, after, now)
  {
    hide ReleasedStake, MulFloor, FullRatios, BatchesInOrder;
    var last, cur := s.state.lastReconciledBatchId, s.state.currentUndelegationBatchId;
    UndelegateShape(s, t, now, release, rate);
    InShape(s);
    ReleasedStakeFrame(s.batches, t.batches, unbonding, after, last, cur - 1);
    ReleasedStakeStep(t.batches, after, last, cur);
  }

  lemma InShape(s: Store)
    requires BatchesInOrder(s)
    ensures s.state.lastReconciledBatchId < s.state.currentUndelegationBatchId
    ensures forall id :: id in s.batches <==> 1 <= id <= s.state.currentUndelegationBatchId
  {
  }

  lemma ReleasedStakeStep(b: map<BatchId, Batch>, u: map<BatchId, nat>, lo: BatchId, hi: BatchId)
    requires lo < hi
    ensures ReleasedStake(b, u, lo, hi)
         == ReleasedStake(b, u, lo, hi - 1) + if hi in u then 0 else BatchAt(b, hi).undelegatedStake
  {
  }

  /** Every reconciliation finds at least the stake it expects, so it pays it in full: the ratio it records is one. */
  lemma ReconcileInFull(s: Store, t: Store, withdrawn: map<BatchId, nat>, balance: nat, unbonding: map<BatchId, nat>,
                        now: nat, end: BatchId)
    requires FundsOk(s, balance, unbonding, now) && LedgerOk(s, withdrawn)
    requires Reconciled(s, t, now, end, SaturatingSub(balance, s.state.reconciledFundsToWithdraw))
    ensures ExpectedStake(s.batches, s.state.lastReconciledBatchId, end)
         == ReleasedStake(s.batches, unbonding, s.state.lastReconciledBatchId, end)
         <= balance - s.state.reconciledFundsToWithdraw
    ensures t.batches == MarkReconciled(s.batches, s.state.lastReconciledBatchId, end, ONE)
    ensures t.state.reconciledFundsToWithdraw
         == s.state.reconciledFundsToWithdraw + ExpectedStake(s.batches, s.state.lastReconciledBatchId, end)
  {
    hide ReleasedStake, ExpectedStake, LedgerOk, ReleasedUpTo;
    var last, cur := s.state.lastReconciledBatchId, s.state.currentUndelegationBatchId;
    var unaccounted := SaturatingSub(balance, s.state.reconciledFundsToWithdraw);
    var expected := ExpectedStake(s.batches, last, end);
    ReconcileWindow(s, t, withdrawn, now, end, unaccounted);
    ReleasedStakeAll(s.batches, unbonding, last, end);
    ReleasedStakeSplit(s.batches, unbonding, last, end, cur - 1);
    assert expected <= unaccounted;
    FullShare(unaccounted, expected);
  }

  lemma FullShare(unaccounted: nat, expected: nat)
    requires 0 < expected <= unaccounted
    ensures Min(unaccounted * ONE / expected, ONE) == ONE
  {
    MulMonotone(expected, unaccounted, ONE, ONE);
    QuotientAtLeast(unaccounted * ONE, expected, ONE);
  }

  lemma ReconcileKeepsFunds(s: Store, t: Store, withdrawn: map<BatchId, nat>, balance: nat,
                            unbonding: map<BatchId, nat>, now: nat, end: BatchId)
    requires FundsOk(s, balance, unbonding, now) && LedgerOk(s, withdrawn)
    requires Reconciled(s, t, now, end, SaturatingSub(balance, s.state.reconciledFundsToWithdraw))
    ensures FundsOk(t, balance, unbonding, now)
  {
    hide ReleasedStake, ExpectedStake, OutstandingClaims, TokensAddUp, ReleasedUpTo, RecordsInOrder, MulFloor;
    var last, cur := s.state.lastReconciledBatchId, s.state.currentUndelegationBatchId;
    ReconcileWindow(s, t, withdrawn, now, end, SaturatingSub(balance, s.state.reconciledFundsToWithdraw));
    ReconcileInFull(s, t, withdrawn, balance, unbonding, now, end);
    ReleasedStakeSplit(s.batches, unbonding, last, end, cur - 1);
    ReleasedStakeFrame(s.batches, t.batches, unbonding, unbonding, end, cur - 1);
  }

  lemma WithdrawKeepsFunds(s: Store, t: Store, balance: nat, after: nat, unbonding: map<BatchId, nat>, now: nat,
                           user: Addr, id: BatchId, paid: nat, fee: nat)
    requires FundsOk(s, balance, unbonding, now) && Withdrawn(s, t, user, id, paid, fee)
    requires paid + fee <= s.state.reconciledFundsToWithdraw && balance <= after + paid + fee
    ensures FundsOk(t, after, unbonding, now)
  {
    hide ReleasedStake, MulFloor;
  }

  lemma PayOutKeepsFunds(s: Store, balance: nat, unbonding: map<BatchId, nat>, now: nat, id: BatchId)
    requires FundsOk(s, balance, unbonding, now)
    ensures FundsOk(s, balance + Held(unbonding, id), unbonding - {id}, now)
  {
    hide ReleasedStake, BatchesInOrder;
    if id in unbonding {
      ReleasedStakePayOut(s.batches, unbonding, s.state.lastReconciledBatchId,
                          s.state.currentUndelegationBatchId - 1, id);
    } else {
      assert unbonding - {id} == unbonding;
    }
  }
}
