/** How much of the funds a reconciliation sets aside can remain unclaimed because of rounding. */
module Dust {
  import opened Decimals
  import opened Sums
  import opened Storage
  import opened Handlers
  import opened Claims
  import opened Effects
  import opened Ledger
  import opened LedgerSteps

  /** The number of records in the batches after `lo` up to and including `hi`. */
  ghost function RecordCount(users: UserMap, lo: BatchId, hi: BatchId): nat {
    if hi <= lo then 0 else RecordCount(users, lo, hi - 1) + |Slice(users, hi)|
  }

  /** On one batch, rounding loses fewer than two units per record. */
  lemma BatchDust(s: Store, withdrawn: map<BatchId, nat>, id: BatchId, ratio: nat)
    requires LedgerOk(s, withdrawn) && ratio <= ONE
    requires s.state.lastReconciledBatchId < id < s.state.currentUndelegationBatchId
    ensures var c := BatchClaims(s.users, id, s.batches[id].(unbondingSlashingRatio := ratio, reconciled := true));
      s.batches[id].undelegatedStake * ratio <= ONE * (c + 2 * |Slice(s.users, id)|)
  {
    hide Outstanding, Slice, Claim;
    var m := Slice(s.users, id);
    var b := s.batches[id];
    assert Held(withdrawn, id) == 0;
    assert Total(m) == b.undelegatedTokens;
    TotalClaimsAtLeast(m, b.undelegationEr, ratio);
    RoundedClaim(b.undelegatedTokens, b.undelegationEr, ratio);
  }

  lemma RoundedClaim(tokens: nat, rate: nat, ratio: nat)
    ensures MulFloor(tokens, rate) * ratio < ONE * Claim(tokens, rate, ratio) + ONE
  {
    FloorBounds(MulFloor(tokens, rate) * ratio, ONE);
  }

  lemma {:induction false} WindowDust(s: Store, t: Store, withdrawn: map<BatchId, nat>, lo: BatchId, hi: BatchId,
                                      end: BatchId, ratio: nat)
    requires LedgerOk(s, withdrawn) && ratio <= ONE && t.users == s.users
    requires s.state.lastReconciledBatchId == lo <= hi <= end < s.state.currentUndelegationBatchId
    requires t.batches == MarkReconciled(s.batches, lo, end, ratio)
    ensures ExpectedStake(s.batches, lo, hi) * ratio
         <= ONE * (Outstanding(t.batches, t.users, lo, hi) + 2 * RecordCount(s.users, lo, hi))
  {
    hide BatchClaims, LedgerOk, Slice;
    if hi > lo {
      WindowDust(s, t, withdrawn, lo, hi - 1, end, ratio);
      BatchDust(s, withdrawn, hi, ratio);
      InRegistry(s, withdrawn, hi);
      Distribute(ExpectedStake(s.batches, lo, hi - 1), s.batches[hi].undelegatedStake, ratio);
    }
  }

  lemma Distribute(a: nat, b: nat, c: nat)
    ensures (a + b) * c == a * c + b * c
  {
  }

  /** Of the funds that one reconciliation sets aside for batches with `n` records and an expected stake `T`, the part
      that no record can ever claim is at least zero and less than `2n + T / 10^18` units. */
  lemma ReconcileDust(s: Store, t: Store, withdrawn: map<BatchId, nat>, now: nat, end: BatchId, unaccounted: nat)
    requires LedgerOk(s, withdrawn) && Reconciled(s, t, now, end, unaccounted)
    ensures var last := s.state.lastReconciledBatchId;
      var expected := ExpectedStake(s.batches, last, end);
      var setAside := t.state.reconciledFundsToWithdraw - s.state.reconciledFundsToWithdraw;
      var claims := OutstandingClaims(t) - OutstandingClaims(s);
      && 0 <= claims <= setAside
      && (setAside - claims) * ONE < 2 * RecordCount(s.users, last, end) * ONE + expected
  {
    hide Outstanding, ExpectedStake, RecordCount, LedgerOk, ReleasedUpTo;
    var last := s.state.lastReconciledBatchId;
    var expected := ExpectedStake(s.batches, last, end);
    var ratio := Min(unaccounted * ONE / expected, ONE);
    var claims := Outstanding(t.batches, t.users, last, end);
    ReconcileKeepsClaims(s, t, withdrawn, now, end, unaccounted);
    ReconcileWindow(s, t, withdrawn, now, end, unaccounted);
    WindowClaimsAtMost(s, t, withdrawn, last, end, end, ratio);
    WindowDust(s, t, withdrawn, last, end, end, ratio);
    ShareAtMost(unaccounted, expected);
    DustArithmetic(expected, unaccounted, claims, RecordCount(s.users, last, end));
  }

  lemma DustArithmetic(expected: nat, unaccounted: nat, claims: nat, n: nat)
    requires expected > 0
    requires expected * Min(unaccounted * ONE / expected, ONE) <= ONE * (claims + 2 * n)
    ensures (Min(unaccounted, expected) - claims) * ONE < 2 * n * ONE + expected
  {
    var share := unaccounted * ONE / expected;
    FloorBounds(unaccounted * ONE, expected);
    if unaccounted < expected {
      MulMonotone(ONE, ONE, unaccounted + 1, expected);
      assert share < ONE by {
        if share >= ONE {
          MulMonotone(expected, expected, ONE, share);
        }
      }
    } else {
      QuotientAtLeast(unaccounted * ONE, expected, ONE);
    }
  }
}
