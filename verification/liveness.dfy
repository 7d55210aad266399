/** Progress without slashing: as long as nothing overflows, every reconciliation with a released batch advances. */
module Liveness {
  import opened Decimals
  import opened Sums
  import opened Storage
  import opened Handlers
  import opened Messages
  import opened Machine
  import opened Effects
  import opened Ledger
  import opened LedgerSteps
  import opened Solvency
  import opened Frozen
  import opened Withdrawals
  import opened Rates
  import opened PoolRuns
  import opened NoHaircut
  import opened SlashFree
  import opened Progress

  /** The rate is at least one, and so was the rate of every closed batch. */
  ghost predicate RatesAtLeastOne(s: Store) {
    && ONE <= s.state.exchangeRate
    && forall id | id in s.batches && id < s.state.currentUndelegationBatchId :: ONE <= s.batches[id].undelegationEr
  }

  /** The open batch stays open, or is closed at the rate that the slashing check has just calculated. */
  lemma OpenBatchKept(s: Store, ch: Chain, sender: Addr, funds: seq<Coin>, call: Call)
    requires Dispatch(s, ch, sender, funds, call).Ok?
    ensures var t := Dispatch(s, ch, sender, funds, call).value.store; var cur := s.state.currentUndelegationBatchId;
      t.state.currentUndelegationBatchId == cur
      || (&& CheckSlashing(s, ch).Ok?
          && t.state.currentUndelegationBatchId == cur + 1
          && BatchAt(t.batches, cur).undelegationEr == CheckSlashing(s, ch).value.state.exchangeRate)
  {
    hide CheckSlashing, QueueUndelegation, UndelegateStakeHandler, ReconcileFunds, WithdrawFundsToWallet, Deposit,
      Reinvest, RedeemRewards, AddValidator, RemoveValidatorFromPool, RebalancePool, UpdateConfig,
      UpdateOperationFlags, MulFloor, MarkReconciled, ExpectedStake, ReleasedUpTo;
    match call
    case CallQueueUndelegation(amount) => QueueEffect(s, ch, sender, amount);
    case CallUndelegate => UndelegateEffect(s, ch, sender);
    case CallReconcileFunds => ReconcileEffect(s, ch);
    case CallWithdraw(id) => WithdrawEffect(s, sender, id);
    case _ => OtherCallsKeepLedger(s, ch, sender, funds, call);
  }

  lemma ClosedRatesStay(s: Store, t: Store)
    requires BatchesInOrder(s) && BatchesInOrder(t) && RatesAtLeastOne(s) && Later(s, t)
    requires ONE <= t.state.exchangeRate
    requires var cur := s.state.currentUndelegationBatchId;
      t.state.currentUndelegationBatchId == cur
      || (t.state.currentUndelegationBatchId == cur + 1 && ONE <= BatchAt(t.batches, cur).undelegationEr)
    ensures RatesAtLeastOne(t)
  {
    hide BatchInOrder;
  }

  lemma CheckedRateAtLeastOne(w: World, before: Chain)
    requires SlashFreeOk(w) && RatesAtLeastOne(w.store) && CheckSlashing(w.store, before).Ok?
    requires before.supply == w.chain.supply && before.delegations == w.chain.delegations
    ensures ONE <= CheckSlashing(w.store, before).value.state.exchangeRate
  {
    hide CheckSlashing, WorldOk, FundsOk, RateCovered, Pool.PoolOk, Pool.Tracks;
    CheckWithoutSlashing(w.store, before);
  }

  lemma StepKeepsRatesAtLeastOne(w: World, e: Event)
    requires SlashFreeOk(w) && Benign(w, e) && RatesAtLeastOne(w.store)
    ensures RatesAtLeastOne(Step(w, e).store)
  {
    hide Attach, Dispatch, ExecuteAll, ChainStep, WorldPoolOk, WorldTracks, WorldCovered, WorldFunded, Benign, Later,
      RatesAtLeastOne, LedgerOk, ChainOk, CheckSlashing;
    StepKeepsSlashFreeOk(w, e);
    if Accepted(w, e) {
      var before := Attach(w.chain, e.sender, e.funds, e.call).value;
      AttachKeepsChainOk(w, before, e.sender, e.funds, e.call);
      OpenBatchKept(w.store, before, e.sender, e.funds, e.call);
      if CheckSlashing(w.store, before).Ok? {
        CheckedRateAtLeastOne(w, before);
      }
      StepIsLater(w, e);
      InLedgerOrder(w.store, w.withdrawn);
      InLedgerOrder(Step(w, e).store, Step(w, e).withdrawn);
      RateIn(w.store);
      ClosedRatesStay(w.store, Step(w, e).store);
    }
  }

  lemma InLedgerOrder(s: Store, withdrawn: map<BatchId, nat>)
    requires LedgerOk(s, withdrawn)
    ensures BatchesInOrder(s)
  {
  }

  lemma RateIn(s: Store)
    requires RatesAtLeastOne(s)
    ensures ONE <= s.state.exchangeRate
  {
  }

  /** In a slash-free run the rate never drops below one, and no batch is closed at less. */
  lemma {:induction false} RunKeepsRatesAtLeastOne(w: World, es: seq<Event>)
    requires SlashFreeOk(w) && SlashFreeRun(w, es) && RatesAtLeastOne(w.store)
    ensures RatesAtLeastOne(Run(w, es).store)
    decreases |es|
  {
    hide Step, SlashFreeOk, Benign, RatesAtLeastOne;
    if es != [] {
      StepKeepsSlashFreeOk(w, es[0]);
      StepKeepsRatesAtLeastOne(w, es[0]);
      RunKeepsRatesAtLeastOne(Step(w, es[0]), es[1..]);
    }
  }

  lemma InitialRateIsOne(w: World)
    requires Initial(w)
    ensures RatesAtLeastOne(w.store)
  {
  }

  lemma WindowShape(s: Store, now: nat)
    requires BatchesInOrder(s)
    requires var next := s.state.lastReconciledBatchId + 1; next in s.batches && Released(s.batches[next], now)
    ensures WindowEnd(s, now).Ok?
    ensures var last, end := s.state.lastReconciledBatchId, WindowEnd(s, now).value;
      && last < end < s.state.currentUndelegationBatchId
      && forall id | last < id <= end :: id in s.batches && Released(s.batches[id], now)
  {
    hide ReleasedUpTo, MulFloor;
    var last := s.state.lastReconciledBatchId;
    var bound := Min(s.state.currentUndelegationBatchId + 1, last + 1 + PAGE);
    ReleasedRunExists(s, last, bound, now);
    ReleasedRun(s.batches, last, bound, now);
    assert last + 1 < bound;
    assert Released(s.batches[WindowEnd(s, now).value], now);
  }

  /** The stake expected for a window is there: its batches have tokens, each worth at least one unit, and their stake
      has been paid out. */
  lemma WindowIsFunded(w: World)
    requires SlashFreeOk(w) && RatesAtLeastOne(w.store)
    requires var next := w.store.state.lastReconciledBatchId + 1;
      next in w.store.batches && Released(w.store.batches[next], w.chain.now)
    ensures WindowEnd(w.store, w.chain.now).Ok?
    ensures w.store.state.lastReconciledBatchId < WindowEnd(w.store, w.chain.now).value
    ensures 0 < ExpectedStake(w.store.batches, w.store.state.lastReconciledBatchId,
                              WindowEnd(w.store, w.chain.now).value)
              <= Unaccounted(w.store, w.chain)
  {
    hide WorldPoolOk, WorldTracks, WorldCovered, ReleasedStake, ExpectedStake, ChainOk, RecordsInOrder, TokensAddUp,
      OutstandingClaims, MulFloor, WindowEnd;
    var s := w.store;
    var last, cur := s.state.lastReconciledBatchId, s.state.currentUndelegationBatchId;
    WindowShape(s, w.chain.now);
    var end := WindowEnd(s, w.chain.now).value;
    ReleasedStakeAll(s.batches, w.chain.unbonding, last, end);
    ReleasedStakeSplit(s.batches, w.chain.unbonding, last, end, cur - 1);
    ClosedBatchHasStake(s, last + 1);
    ExpectedStakePositive(s.batches, last, end);
  }

  lemma ClosedBatchHasStake(s: Store, id: BatchId)
    requires BatchesInOrder(s) && RatesAtLeastOne(s) && 1 <= id < s.state.currentUndelegationBatchId
    ensures id in s.batches && BatchAt(s.batches, id).undelegatedStake > 0
  {
    hide MulFloor;
    var b := s.batches[id];
    MulFloorMonotone(1, b.undelegatedTokens, ONE, b.undelegationEr);
    MulFloorOne(1);
  }

  lemma FundedReconcileAdvances(w: World, sender: Addr)
    requires BatchesInOrder(w.store) && WindowEnd(w.store, w.chain.now).Ok?
    requires var s := w.store;
      0 < ExpectedStake(s.batches, s.state.lastReconciledBatchId, WindowEnd(s, w.chain.now).value)
        <= Unaccounted(s, w.chain)
    ensures var s := w.store; var last := s.state.lastReconciledBatchId;
      var expected := ExpectedStake(s.batches, last, WindowEnd(s, w.chain.now).value);
      var r := Transact(w, sender, [], CallReconcileFunds);
      && (r.Ok? <==> !s.controls.reconcilePaused
                     && ReconcileFits(s.state.reconciledFundsToWithdraw, expected, Unaccounted(s, w.chain)))
      && (r.Ok? ==> r.value.store.state.lastReconciledBatchId == WindowEnd(s, w.chain.now).value > last)
  {
    hide ExpectedStake, ReconcileFunds, Attach, Unaccounted, WindowEnd, ReconcileFits, BatchesInOrder;
    AttachNothing(w.chain, sender, CallReconcileFunds);
    ReconcileSees(w.store, w.chain, Attach(w.chain, sender, [], CallReconcileFunds).value);
    ReconcileAdvancesExactly(w.store, w.chain);
    if ReconcileFunds(w.store, w.chain).Ok? {
      FundedReconcileMoves(w.store, w.chain);
    }
  }

  lemma FundedReconcileMoves(s: Store, ch: Chain)
    requires BatchesInOrder(s) && ReconcileFunds(s, ch).Ok? && WindowEnd(s, ch.now).Ok?
    requires ExpectedStake(s.batches, s.state.lastReconciledBatchId, WindowEnd(s, ch.now).value) > 0
    ensures Advances(s, ch)
  {
    hide ExpectedStake, MarkReconciled, BatchInOrder;
    var last := s.state.lastReconciledBatchId;
    ReleasedRun(s.batches, last, Min(s.state.currentUndelegationBatchId + 1, last + 1 + PAGE), ch.now);
    ExpectedStakePositive(s.batches, last, WindowEnd(s, ch.now).value);
  }

  /** In every slash-free run from instantiation, a reconciliation with a released batch to reconcile goes through if
      and only if reconciling is not paused and nothing overflows, and then it advances: the batches of the window have
      stake, and all of it has arrived. */
  lemma ReconcileAdvancesWithoutSlashing(w: World, es: seq<Event>, sender: Addr)
    requires Initial(w) && SlashFreeRun(w, es)
    requires var s := Run(w, es).store; var next := s.state.lastReconciledBatchId + 1;
      next in s.batches && Released(s.batches[next], Run(w, es).chain.now)
    ensures var end := Run(w, es); var s := end.store; var last := s.state.lastReconciledBatchId;
      var r := Transact(end, sender, [], CallReconcileFunds);
      && WindowEnd(s, end.chain.now).Ok?
      && var expected := ExpectedStake(s.batches, last, WindowEnd(s, end.chain.now).value);
      && 0 < expected <= Unaccounted(s, end.chain)
      && (r.Ok? <==> !s.controls.reconcilePaused
                     && ReconcileFits(s.state.reconciledFundsToWithdraw, expected, Unaccounted(s, end.chain)))
      && (r.Ok? ==> r.value.store.state.lastReconciledBatchId == WindowEnd(s, end.chain.now).value > last)
  {
    hide Initial, Run, WorldPoolOk, WorldTracks, WorldCovered, WorldFunded, RatesAtLeastOne, ExpectedStake, Transact,
      ChainOk, Unaccounted, WindowEnd, ReconcileFits, SlashFreeRun;
    var end := Run(w, es);
    InitialSlashFreeOk(w);
    InitialRateIsOne(w);
    RunKeepsSlashFreeOk(w, es);
    RunKeepsRatesAtLeastOne(w, es);
    WindowIsFunded(end);
    InLedgerOrder(end.store, end.withdrawn);
    FundedReconcileAdvances(end, sender);
  }

  /** A reconciliation sees no more of the chain than the time and its own balance, and it emits no messages. */
  lemma ReconcileSees(s: Store, ch: Chain, other: Chain)
    requires other.now == ch.now && Held(other.luna, SELF) == Held(ch.luna, SELF)
    ensures ReconcileFunds(s, other) == ReconcileFunds(s, ch)
    ensures ReconcileFunds(s, ch).Ok? ==> ReconcileFunds(s, ch).value.messages == []
  {
  }
}
