/** Queueing tokens for undelegation. */
module Queueing {
  import opened Decimals
  import opened Sums
  import opened Storage
  import opened Handlers
  import opened Machine
  import opened Effects
  import opened Ledger
  import opened Solvency
  import opened SlashingCheck

  /** `n` more tokens fit into the user's record and into the open batch. */
  predicate QueueFits(s: Store, user: Addr, n: nat) {
    && QueuedAmount(s, user, s.state.currentUndelegationBatchId) + n < U128_LIMIT
    && OpenBatch(s).undelegatedTokens + n < U128_LIMIT
  }

  /** `n` tokens of `user` have joined the open batch. */
  ghost predicate QueuedFor(w: World, t: World, user: Addr, funds: seq<Coin>, n: nat) {
    var s := w.store; var id := s.state.currentUndelegationBatchId;
    && t.store == s.(
         state := s.state.(totalStaked := PoolStake(w), exchangeRate := CheckedRate(w)),
         validatorMeta := t.store.validatorMeta,
         users := s.users[(user, id) := UndelegationInfo(id, QueuedAmount(s, user, id) + n)],
         batches := s.batches[id := OpenBatch(s).(undelegatedTokens := OpenBatch(s).undelegatedTokens + n,
                                                  undelegationEr := CheckedRate(w))])
    && SyncedTo(s.validatorMeta, t.store.validatorMeta, s.state.validators, w.chain.delegations, w.chain.delegations)
    && t.chain == w.chain.(luna := t.chain.luna, tokens := t.chain.tokens)
    && Moved(w.chain.luna, t.chain.luna, user, SELF, VaultAmount(funds))
    && Moved(w.chain.tokens, t.chain.tokens, user, SELF, n)
    && t.withdrawn == w.withdrawn
  }

  lemma QueueSyncedExactly(s: Store, user: Addr, n: nat)
    requires BatchesInOrder(s) && RecordsInOrder(s)
    ensures QueueSynced(s, user, n).Ok? <==> QueueFits(s, user, n)
    ensures QueueSynced(s, user, n).Ok? ==>
              var id := s.state.currentUndelegationBatchId;
              QueueSynced(s, user, n).value
              == Response(s.(users := s.users[(user, id) := UndelegationInfo(id, QueuedAmount(s, user, id) + n)],
                             batches := s.batches[id := OpenBatch(s).(
                                                    undelegatedTokens := OpenBatch(s).undelegatedTokens + n,
                                                    undelegationEr := s.state.exchangeRate)]), [])
  {
    hide BatchInOrder;
  }

  /** Queueing commits if and only if it is not paused, the user holds a positive number of tokens to queue, the slashing
      check passes and the record and the batch have room, however much the user has queued before. */
  lemma QueueingExactly(w: World, user: Addr, funds: seq<Coin>, n: nat)
    requires WorldOk(w)
    ensures var r := Transact(w, user, funds, CallQueueUndelegation(n));
      && (r.Ok? <==> && !w.store.controls.queueUndelegatePaused
                     && VaultAmount(funds) <= Held(w.chain.luna, user) && 0 < n <= Held(w.chain.tokens, user)
                     && WorldCheckFits(w) && QueueFits(w.store, user, n))
      && (r.Ok? ==> QueuedFor(w, r.value, user, funds, n))
  {
    hide Attach, CheckSlashing, QueueSynced, SyncedTo, Moved, VaultAmount, QueueFits, CheckFits, RateOf, TokensAddUp,
      OutstandingClaims, ChainOk, BatchesInOrder, RecordsInOrder;
    var call := CallQueueUndelegation(n);
    AttachExactly(w.chain, user, funds, call);
    if Attach(w.chain, user, funds, call).Ok? {
      var before := Attach(w.chain, user, funds, call).value;
      CheckSlashingExactly(w.store, before);
      if CheckSlashing(w.store, before).Ok? {
        CheckKeepsOrder(w.store, before);
        QueueSyncedExactly(CheckSlashing(w.store, before).value, user, n);
        assert QueueFits(CheckSlashing(w.store, before).value, user, n) == QueueFits(w.store, user, n) by {
          QueueFitsFrame(w.store, CheckSlashing(w.store, before).value, user, n);
        }
      }
    }
  }

  lemma CheckKeepsOrder(s: Store, ch: Chain)
    requires BatchesInOrder(s) && RecordsInOrder(s) && CheckSlashing(s, ch).Ok?
    ensures BatchesInOrder(CheckSlashing(s, ch).value) && RecordsInOrder(CheckSlashing(s, ch).value)
    ensures LedgerSame(s, CheckSlashing(s, ch).value)
  {
    hide CheckSlashing, BatchInOrder;
    CheckSlashingEffect(s, ch);
  }

  lemma QueueFitsFrame(s: Store, t: Store, user: Addr, n: nat)
    requires LedgerSame(s, t)
    ensures QueueFits(t, user, n) == QueueFits(s, user, n)
  {
  }
}
