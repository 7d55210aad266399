/** The undelegation ledger: batches, the records of their users, and the funds set aside for them.
    Every call keeps the ledger in order, with or without slashing. */
module Ledger {
  import opened Decimals
  import opened Sums
  import opened Storage
  import opened Handlers
  import opened Claims

  // ---- The invariant ----

  /** Where batch `id` stands when the batches up to `last` are reconciled and `cur` is open. */
  predicate BatchInOrder(id: BatchId, b: Batch, last: BatchId, cur: BatchId) {
    && (b.estReleaseTime.Some? <==> id < cur)
    && (b.reconciled <==> id <= last)
    && b.unbondingSlashingRatio <= ONE
    && (id > last ==> b.unbondingSlashingRatio == ONE)
    && (id < cur ==> b.undelegatedTokens > 0
                     && b.undelegatedTokens * b.undelegationEr < U128_LIMIT
                     && b.undelegatedStake == MulFloor(b.undelegatedTokens, b.undelegationEr))
    && (id == cur ==> b.undelegatedStake == 0)
  }

  ghost predicate BatchesInOrder(s: Store) {
    var cur, last := s.state.currentUndelegationBatchId, s.state.lastReconciledBatchId;
    && last < cur
    && (forall id :: id in s.batches <==> 1 <= id <= cur)
    && (forall id | id in s.batches :: BatchInOrder(id, s.batches[id], last, cur))
  }

  ghost predicate RecordsInOrder(s: Store) {
    forall k | k in s.users :: k.1 in s.batches && s.users[k].batchId == k.1
  }

  /** What is left in the records of a batch and what was withdrawn from them make up the batch's tokens; nothing is
      withdrawn from a batch before it is reconciled. */
  ghost predicate TokensAddUp(s: Store, withdrawn: map<BatchId, nat>) {
    && (forall id | id in s.batches ::
          BatchTokens(s.users, id) + Held(withdrawn, id) == s.batches[id].undelegatedTokens)
    && (forall id | id in withdrawn :: id <= s.state.lastReconciledBatchId)
  }

  /** The claims of all records in the batches after `lo` up to and including `hi`. */
  ghost function Outstanding(batches: map<BatchId, Batch>, users: UserMap, lo: BatchId, hi: BatchId): nat {
    if hi <= lo then 0 else Outstanding(batches, users, lo, hi - 1) + BatchClaims(users, hi, BatchAt(batches, hi))
  }

  ghost function OutstandingClaims(s: Store): nat {
    Outstanding(s.batches, s.users, 0, s.state.lastReconciledBatchId)
  }

  ghost predicate LedgerOk(s: Store, withdrawn: map<BatchId, nat>) {
    && BatchesInOrder(s) && RecordsInOrder(s) && TokensAddUp(s, withdrawn)
    && OutstandingClaims(s) <= s.state.reconciledFundsToWithdraw
  }

  // ---- Sums over ranges of batches ----

  lemma {:induction false} OutstandingFrame(s: map<BatchId, Batch>, u: UserMap, t: map<BatchId, Batch>, v: UserMap,
                                            lo: BatchId, hi: BatchId)
    requires forall id | lo < id <= hi :: BatchAt(t, id) == BatchAt(s, id) && Slice(v, id) == Slice(u, id)
    ensures Outstanding(t, v, lo, hi) == Outstanding(s, u, lo, hi)
  {
    if hi > lo {
      OutstandingFrame(s, u, t, v, lo, hi - 1);
    }
  }

  lemma {:induction false} OutstandingSplit(b: map<BatchId, Batch>, u: UserMap, lo: BatchId, mid: BatchId, hi: BatchId)
    requires lo <= mid <= hi
    ensures Outstanding(b, u, lo, hi) == Outstanding(b, u, lo, mid) + Outstanding(b, u, mid, hi)
  {
    if hi > mid {
      OutstandingSplit(b, u, lo, mid, hi - 1);
    }
  }

  lemma {:induction false} OutstandingRemove(b: map<BatchId, Batch>, u: UserMap, lo: BatchId, hi: BatchId,
                                             k: (Addr, BatchId))
    requires k in u && lo < k.1 <= hi
    ensures var c := BatchAt(b, k.1);
      Outstanding(b, u, lo, hi) == Outstanding(b, u - {k}, lo, hi)
                                   + Claim(u[k].tokenAmount, c.undelegationEr, c.unbondingSlashingRatio)
  {
    hide BatchClaims, Slice;
    RemoveRecord(u, k, BatchAt(b, k.1));
    if k.1 == hi {
      OutstandingFrame(b, u, b, u - {k}, lo, hi - 1);
    } else {
      OutstandingRemove(b, u, lo, hi - 1, k);
      SameSliceSameClaims(u, u - {k}, hi, BatchAt(b, hi));
    }
  }

  lemma SameSliceSameClaims(u: UserMap, v: UserMap, id: BatchId, b: Batch)
    requires Slice(u, id) == Slice(v, id)
    ensures BatchClaims(u, id, b) == BatchClaims(v, id, b) && BatchTokens(u, id) == BatchTokens(v, id)
  {
  }
}
