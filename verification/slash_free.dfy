/** Runs without slashing. In them the tracked stake is always the stake on the chain, the exchange rate never falls
    while there are tokens, and every batch is paid in full. */
module SlashFree {
  import opened Results
  import opened Decimals
  import opened Sums
  import opened Storage
  import opened Selection
  import opened SelectionProofs
  import opened Handlers
  import opened Messages
  import opened Machine
  import opened Effects
  import opened Ledger
  import opened LedgerSteps
  import opened Flows
  import opened Solvency
  import opened Pool
  import opened PoolRuns
  import opened Rates
  import opened SlashFreeRates
  import opened NoHaircut

  /** Nothing is slashed, and the chain pays out the stake of a batch no later than its estimated release. */
  ghost predicate Benign(w: World, e: Event) {
    && !e.SlashDelegation? && !e.SlashUnbonding?
    && (e.AdvanceTime? ==>
          forall id | id in w.chain.unbonding && id in w.store.batches && w.store.batches[id].estReleaseTime.Some? ::
            e.to < w.store.batches[id].estReleaseTime.value)
  }

  ghost predicate SlashFreeRun(w: World, es: seq<Event>)
    decreases |es|
  {
    es != [] ==> Benign(w, es[0]) && SlashFreeRun(Step(w, es[0]), es[1..])
  }

  ghost predicate WorldCovered(w: World) {
    Covered(w.store, w.chain.supply)
  }

  ghost predicate WorldFunded(w: World) {
    FundsOk(w.store, Held(w.chain.luna, SELF), w.chain.unbonding, w.chain.now)
  }

  /** What holds in every world that a slash-free run reaches. */
  ghost predicate SlashFreeOk(w: World) {
    WorldOk(w) && WorldPoolOk(w) && WorldTracks(w) && WorldCovered(w) && WorldFunded(w)
  }

  // ---- The rate ----

  lemma OpenBatchInSupply(s: Store, ch: Chain)
    requires ChainOk(s, ch)
    ensures OpenBatch(s).undelegatedTokens <= ch.supply
  {
    HeldAtMostTotal(ch.tokens, SELF);
  }

  lemma AttachKeepsChainOk(w: World, before: Chain, sender: Addr, funds: seq<Coin>, call: Call)
    requires WorldOk(w) && External(sender) && Attach(w.chain, sender, funds, call) == Ok(before)
    ensures ChainOk(w.store, before) && before.supply == w.chain.supply && before.delegations == w.chain.delegations
    ensures before.unbonding == w.chain.unbonding && before.now == w.chain.now
    ensures Held(before.luna, SELF) == Held(w.chain.luna, SELF) + VaultAmount(funds)
  {
    hide Total, LedgerOk, ConfigOk, VaultAmount, Attach;
    AttachEffect(w.chain, sender, funds, call);
  }

  lemma TransactKeepsCovered(w: World, sender: Addr, funds: seq<Coin>, call: Call)
    requires WorldOk(w) && WorldPoolOk(w) && WorldTracks(w) && WorldCovered(w) && External(sender)
    requires Transact(w, sender, funds, call).Ok?
    ensures var t := Transact(w, sender, funds, call).value;
      && WorldCovered(t)
      && (w.chain.supply > 0 ==> w.store.state.exchangeRate <= t.store.state.exchangeRate)
      && (w.chain.supply == 0 ==>
            t.store.state.exchangeRate == w.store.state.exchangeRate || t.store.state.exchangeRate == ONE)
  {
    hide Attach, Dispatch, ExecuteAll, PoolOk, Tracks, RateCovered, Total, LedgerOk, ConfigOk, TotalMinted, TotalBurnt;
    var before := Attach(w.chain, sender, funds, call).value;
    var r := Dispatch(w.store, before, sender, funds, call).value;
    AttachKeepsChainOk(w, before, sender, funds, call);
    OpenBatchInSupply(w.store, before);
    DepositFeeBound(w);
    CallsKeepRate(w.store, before, sender, funds, call);
    ExecuteAllSupply(before, r.messages);
  }

  lemma DepositFeeBound(w: World)
    requires WorldOk(w)
    ensures w.store.config.protocolDepositFee <= DEPOSIT_FEE_CAP
    ensures w.store.config.protocolWithdrawFee <= WITHDRAW_FEE_CAP
    ensures ValidateUnbondingPeriod(w.store.config.unbondingPeriod)
  {
  }

  // ---- The funds ----

  function NoUndelegation(ms: seq<Message>): bool {
    ms == [] || (!ms[0].UndelegateStake? && NoUndelegation(ms[1..]))
  }

  lemma {:induction false} NoUndelegationAppend(a: seq<Message>, b: seq<Message>)
    requires NoUndelegation(a) && NoUndelegation(b)
    ensures NoUndelegation(a + b)
  {
    if a == [] {
      assert a + b == b;
    } else {
      assert (a + b)[1..] == a[1..] + b;
      NoUndelegationAppend(a[1..], b);
    }
  }

  lemma {:induction false} ExecuteAllKeepsUnbonding(ch: Chain, ms: seq<Message>)
    requires ExecuteAll(ch, ms).Ok? && NoUndelegation(ms)
    ensures ExecuteAll(ch, ms).value.unbonding == ch.unbonding && ExecuteAll(ch, ms).value.now == ch.now
    decreases |ms|
  {
    hide Credit, Debit, Move, SendAll, RewardContract.Transfer;
    if ms != [] {
      ExecuteAllKeepsUnbonding(Execute(ch, ms[0]).value, ms[1..]);
    }
  }

  lemma SyncedCallsDoNotUndelegate(s: Store, ch: Chain, sender: Addr, amount: nat, v: Addr, redel: Addr)
    ensures DepositSynced(s, ch, sender, amount).Ok? ==>
              NoUndelegation(DepositSynced(s, ch, sender, amount).value.messages)
    ensures ReinvestSynced(s, ch, sender).Ok? ==> NoUndelegation(ReinvestSynced(s, ch, sender).value.messages)
    ensures RemoveSynced(s, ch, v, redel).Ok? ==> NoUndelegation(RemoveSynced(s, ch, v, redel).value.messages)
    ensures RebalanceSynced(s, ch, amount, v, redel).Ok? ==>
              NoUndelegation(RebalanceSynced(s, ch, amount, v, redel).value.messages)
  {
    hide ComputeDepositBreakdown, RewardFee, ValidatorForDeposit, IncreaseTrackedStake, DecreaseTrackedStake,
      CalculateExchangeRate, Without;
    if DepositSynced(s, ch, sender, amount).Ok? {
      var b := ComputeDepositBreakdown(s, amount).value;
      var u := ValidatorForDeposit(s.state.validators, ch.bonded, ch.delegations).GetOr(0);
      var fees := SendMessages(s.config.protocolFeeContract, b.protocolFee);
      var stakes := DelegateMessages(u, b.stakedAmount);
      var mints := MintMessages(sender, b.tokensToMint);
      NoUndelegationAppend(fees, stakes);
      NoUndelegationAppend(fees + stakes, mints);
      assert DepositSynced(s, ch, sender, amount).value.messages == fees + stakes + mints;
    }
    if ReinvestSynced(s, ch, sender).Ok? {
      var ms := ReinvestSynced(s, ch, sender).value.messages;
      assert ms[1..] == [] || (ms[1..] == [ms[1]] && ms[1].Delegate?);
      assert NoUndelegation(ms[1..]) by {
        assert |ms| == 2 ==> ms[1..][1..] == [];
      }
    }
  }

  lemma OtherCallsDoNotUndelegate(s: Store, ch: Chain, sender: Addr, funds: seq<Coin>, call: Call)
    requires !TouchesLedger(call) && Dispatch(s, ch, sender, funds, call).Ok?
    ensures NoUndelegation(Dispatch(s, ch, sender, funds, call).value.messages)
  {
    hide CheckSlashing, DepositSynced, ReinvestSynced, RemoveSynced, RebalanceSynced;
    if CheckSlashing(s, ch).Ok? {
      var s1 := CheckSlashing(s, ch).value;
      match call
      case CallDeposit => SyncedCallsDoNotUndelegate(s1, ch, sender, SingleVaultFund(funds).value, 0, 0);
      case CallReinvest => SyncedCallsDoNotUndelegate(s1, ch, sender, 0, 0, 0);
      case CallRemoveValidator(v, redel) => SyncedCallsDoNotUndelegate(s1, ch, sender, 0, v, redel);
      case CallRebalancePool(amount, v, redel) => SyncedCallsDoNotUndelegate(s1, ch, sender, amount, v, redel);
      case _ =>
    }
  }

  lemma OtherCallsKeepFunds(w: World, before: Chain, sender: Addr, funds: seq<Coin>, call: Call)
    requires WorldOk(w) && WorldFunded(w) && External(sender) && !TouchesLedger(call)
    requires Attach(w.chain, sender, funds, call) == Ok(before)
    requires Transact(w, sender, funds, call).Ok?
    ensures WorldFunded(Transact(w, sender, funds, call).value)
  {
    hide Attach, Dispatch, ExecuteAll, WorldOk, VaultAmount, FundsOk, TotalNetLuna, TotalBurnt, NoUndelegation, Total;
    var r := Dispatch(w.store, before, sender, funds, call).value;
    var after := ExecuteAll(before, r.messages).value;
    AttachKeepsChainOk(w, before, sender, funds, call);
    ConfigIsOk(w);
    OtherCallsKeepLedger(w.store, before, sender, funds, call);
    OtherCallsAreBalanced(w.store, before, sender, funds, call);
    OtherCallsDoNotUndelegate(w.store, before, sender, funds, call);
    ExecuteAllCovers(before, r.messages);
    ExecuteAllKeepsUnbonding(before, r.messages);
    SameKeepsFunds(w.store, r.store, Held(w.chain.luna, SELF), Held(after.luna, SELF), w.chain.unbonding, w.chain.now);
  }

  lemma ConfigIsOk(w: World)
    requires WorldOk(w)
    ensures ConfigOk(w.store.config)
  {
  }

  lemma QueueCallKeepsFunds(w: World, before: Chain, sender: Addr, funds: seq<Coin>, amount: nat)
    requires WorldOk(w) && WorldFunded(w) && External(sender)
    requires Attach(w.chain, sender, funds, CallQueueUndelegation(amount)) == Ok(before)
    requires Transact(w, sender, funds, CallQueueUndelegation(amount)).Ok?
    ensures WorldFunded(Transact(w, sender, funds, CallQueueUndelegation(amount)).value)
  {
    hide Attach, QueueUndelegation, CheckSlashing, WorldOk, VaultAmount, FundsOk;
    AttachKeepsChainOk(w, before, sender, funds, CallQueueUndelegation(amount));
    QueueEffect(w.store, before, sender, amount);
    QueueKeepsFunds(w.store, QueueUndelegation(w.store, before, sender, amount).value.store,
                    Held(w.chain.luna, SELF), Held(before.luna, SELF), w.chain.unbonding, w.chain.now, sender, amount,
                    CheckSlashing(w.store, before).value.state.exchangeRate);
  }

  /** Executing the undelegations of a plan moves their sum into the unbonding stake of the batch. */
  lemma {:induction false} ExecuteUndelegations(ch: Chain, taken: seq<(Addr, nat)>, id: BatchId)
    requires ExecuteAll(ch, UndelegateMessages(taken, id)).Ok?
    ensures var after := ExecuteAll(ch, UndelegateMessages(taken, id)).value;
      && after == ch.(delegations := after.delegations, unbonding := after.unbonding)
      && (taken == [] ==> after.unbonding == ch.unbonding)
      && (taken != [] ==> after.unbonding == ch.unbonding[id := Held(ch.unbonding, id) + PlanSum(taken)])
    decreases |taken|
  {
    hide Debit;
    if taken != [] {
      var m := UndelegateStake(taken[0].0, taken[0].1, id);
      assert UndelegateMessages(taken, id)[1..] == UndelegateMessages(taken[1..], id);
      ExecuteUndelegations(Execute(ch, m).value, taken[1..], id);
    }
  }

  /** A plan for nothing is empty, and a plan for something is not. */
  lemma PlanIsEmptyIffNothing(pool: seq<Addr>, ch: Chain, stake: nat)
    requires PlanUndelegation(pool, ch, stake).Ok?
    ensures PlanUndelegation(pool, ch, stake).value == [] <==> stake == 0
  {
    hide Active, DelegatedSum, ActiveValidatorsSortedByStake;
    GreedyIsExact(pool, ch.bonded, ch.delegations, stake);
  }

  lemma UndelegateSyncedUnbonds(s: Store, ch: Chain, sender: Addr)
    requires UndelegateSynced(s, ch, sender).Ok?
    requires ExecuteAll(ch, UndelegateSynced(s, ch, sender).value.messages).Ok?
    requires s.state.currentUndelegationBatchId !in ch.unbonding
    ensures var r := UndelegateSynced(s, ch, sender).value; var after := ExecuteAll(ch, r.messages).value;
      var id := s.state.currentUndelegationBatchId;
      && id in r.store.batches
      && Unbonds(ch.unbonding, after.unbonding, id, r.store.batches[id].undelegatedStake)
      && after.now == ch.now && after.luna == ch.luna
  {
    hide PlanUndelegation, DecreaseTrackedStakes, UndelegateMessages, MulFloor, PlanSum, ExecuteAll, DelegatedSum;
    var id := s.state.currentUndelegationBatchId;
    var b := s.batches[id];
    var stake := MultiplyU128WithDecimal(b.undelegatedTokens, s.state.exchangeRate).value;
    var taken := PlanUndelegation(s.state.validators, ch, stake).value;
    PlanIsExact(s.state.validators, ch, stake);
    PlanIsEmptyIffNothing(s.state.validators, ch, stake);
    ExecuteAppend(ch, UndelegateMessages(taken, id), [BurnTokens(b.undelegatedTokens)]);
    ExecuteUndelegations(ch, taken, id);
    ExecuteOne(ExecuteAll(ch, UndelegateMessages(taken, id)).value, BurnTokens(b.undelegatedTokens));
  }

  lemma ExecuteOne(ch: Chain, m: Message)
    ensures ExecuteAll(ch, [m]) == Execute(ch, m)
  {
    assert [m][1..] == [];
  }

  lemma UndelegateUnbonds(s: Store, ch: Chain, sender: Addr)
    requires UndelegateStakeHandler(s, ch, sender).Ok?
    requires ExecuteAll(ch, UndelegateStakeHandler(s, ch, sender).value.messages).Ok?
    requires s.state.currentUndelegationBatchId !in ch.unbonding
    ensures var r := UndelegateStakeHandler(s, ch, sender).value; var after := ExecuteAll(ch, r.messages).value;
      var id := s.state.currentUndelegationBatchId;
      && id in r.store.batches
      && Unbonds(ch.unbonding, after.unbonding, id, r.store.batches[id].undelegatedStake)
      && after.now == ch.now && after.luna == ch.luna
  {
    hide CheckSlashing, UndelegateSynced, ExecuteAll;
    CheckSlashingEffect(s, ch);
    UndelegateSyncedUnbonds(CheckSlashing(s, ch).value, ch, sender);
  }

  lemma UndelegateCallKeepsFunds(w: World, before: Chain, sender: Addr, funds: seq<Coin>)
    requires WorldOk(w) && WorldFunded(w) && External(sender)
    requires Attach(w.chain, sender, funds, CallUndelegate) == Ok(before)
    requires Transact(w, sender, funds, CallUndelegate).Ok?
    ensures WorldFunded(Transact(w, sender, funds, CallUndelegate).value)
  {
    hide Attach, UndelegateStakeHandler, CheckSlashing, WorldOk, VaultAmount, ExecuteAll, FundsOk;
    var r := UndelegateStakeHandler(w.store, before, sender).value;
    var after := ExecuteAll(before, r.messages).value;
    AttachKeepsChainOk(w, before, sender, funds, CallUndelegate);
    UndelegateEffect(w.store, before, sender);
    NothingOpenUnbonds(w);
    UndelegateUnbonds(w.store, before, sender);
    DepositFeeBound(w);
    UndelegateKeepsFunds(w.store, r.store, Held(w.chain.luna, SELF), Held(after.luna, SELF), w.chain.unbonding,
                         after.unbonding, before.now, PlusSeconds(before.now, w.store.config.unbondingPeriod),
                         CheckSlashing(w.store, before).value.state.exchangeRate);
  }

  lemma NothingOpenUnbonds(w: World)
    requires WorldFunded(w)
    ensures w.store.state.currentUndelegationBatchId !in w.chain.unbonding
  {
    hide ReleasedStake, BatchesInOrder;
  }

  lemma FundsGrow(s: Store, balance: nat, more: nat, unbonding: map<BatchId, nat>, now: nat)
    requires FundsOk(s, balance, unbonding, now) && balance <= more
    ensures FundsOk(s, more, unbonding, now)
  {
    hide ReleasedStake, BatchesInOrder;
  }

  lemma ReconcileCallKeepsFunds(w: World, before: Chain, sender: Addr, funds: seq<Coin>)
    requires WorldOk(w) && WorldFunded(w) && External(sender)
    requires Attach(w.chain, sender, funds, CallReconcileFunds) == Ok(before)
    requires Transact(w, sender, funds, CallReconcileFunds).Ok?
    ensures WorldFunded(Transact(w, sender, funds, CallReconcileFunds).value)
  {
    hide Attach, ReconcileFunds, VaultAmount, FundsOk, LedgerOk, ConfigOk;
    var t := ReconcileFunds(w.store, before).value.store;
    AttachKeepsChainOk(w, before, sender, funds, CallReconcileFunds);
    ReconcileEffect(w.store, before);
    FundsGrow(w.store, Held(w.chain.luna, SELF), Held(before.luna, SELF), w.chain.unbonding, w.chain.now);
    if t != w.store {
      ReconcileKeepsFunds(w.store, t, w.withdrawn, Held(before.luna, SELF), w.chain.unbonding, w.chain.now,
                          t.state.lastReconciledBatchId);
    }
  }

  lemma WithdrawCallKeepsFunds(w: World, before: Chain, sender: Addr, funds: seq<Coin>, id: BatchId)
    requires WorldOk(w) && WorldFunded(w) && External(sender)
    requires Attach(w.chain, sender, funds, CallWithdraw(id)) == Ok(before)
    requires Transact(w, sender, funds, CallWithdraw(id)).Ok?
    ensures WorldFunded(Transact(w, sender, funds, CallWithdraw(id)).value)
  {
    hide Attach, WithdrawFundsToWallet, VaultAmount, FundsOk, LedgerOk, ExecuteAll, MulFloor, TotalNetLuna, TotalBurnt,
      NoUndelegation, Total, OutstandingClaims;
    var s := w.store;
    AttachKeepsChainOk(w, before, sender, funds, CallWithdraw(id));
    WithdrawEffect(s, sender, id);
    var r := WithdrawFundsToWallet(s, sender, id).value;
    var c := ComputeWithdrawableFunds(s, id, sender).value;
    var after := ExecuteAll(before, r.messages).value;
    WithdrawPaysClaim(s, r.store, w.withdrawn, sender, id, c.userWithdrawalAmount, c.protocolFee);
    WithdrawIsBalanced(sender, c.userWithdrawalAmount, s.config.protocolFeeContract, c.protocolFee);
    ExecuteAllCovers(before, r.messages);
    SendsDoNotUndelegate(sender, c.userWithdrawalAmount, s.config.protocolFeeContract, c.protocolFee);
    ExecuteAllKeepsUnbonding(before, r.messages);
    FundsGrow(s, Held(w.chain.luna, SELF), Held(before.luna, SELF), w.chain.unbonding, w.chain.now);
    WithdrawKeepsFunds(s, r.store, Held(before.luna, SELF), Held(after.luna, SELF), w.chain.unbonding, w.chain.now,
                       sender, id, c.userWithdrawalAmount, c.protocolFee);
  }

  lemma SendsDoNotUndelegate(to: Addr, amount: nat, feeTo: Addr, fee: nat)
    ensures NoUndelegation(SendMessages(to, amount) + SendMessages(feeTo, fee))
  {
    NoUndelegationAppend(SendMessages(to, amount), SendMessages(feeTo, fee));
  }

  lemma TransactKeepsFunds(w: World, sender: Addr, funds: seq<Coin>, call: Call)
    requires WorldOk(w) && WorldFunded(w) && External(sender) && Transact(w, sender, funds, call).Ok?
    ensures WorldFunded(Transact(w, sender, funds, call).value)
  {
    hide Attach, ExecuteAll, WorldOk, WorldFunded, Deposit, Reinvest, RedeemRewards, QueueUndelegation,
      UndelegateStakeHandler, ReconcileFunds, WithdrawFundsToWallet, AddValidator, RemoveValidatorFromPool,
      RebalancePool, UpdateConfig, UpdateOperationFlags;
    var before := Attach(w.chain, sender, funds, call).value;
    match call
    case CallQueueUndelegation(amount) => QueueCallKeepsFunds(w, before, sender, funds, amount);
    case CallUndelegate => UndelegateCallKeepsFunds(w, before, sender, funds);
    case CallReconcileFunds => ReconcileCallKeepsFunds(w, before, sender, funds);
    case CallWithdraw(id) => WithdrawCallKeepsFunds(w, before, sender, funds, id);
    case _ => OtherCallsKeepFunds(w, before, sender, funds, call);
  }

  // ---- Steps and runs ----

  lemma EnvironmentKeepsCovered(w: World, e: Event)
    requires WorldCovered(w) && !e.Tx?
    ensures WorldCovered(Step(w, e))
  {
    hide RateCovered;
    if e.BurnOwnTokens? {
      FewerTokensKeepRate(w.store.state.exchangeRate, w.store.state.totalStaked, w.chain.supply,
                          Step(w, e).chain.supply);
    }
  }

  lemma TimeKeepsFunds(w: World, e: Event)
    requires WorldFunded(w) && e.AdvanceTime? && Benign(w, e)
    ensures WorldFunded(Step(w, e))
  {
    hide ReleasedStake, BatchesInOrder;
  }

  lemma EnvironmentKeepsFunds(w: World, e: Event)
    requires WorldFunded(w) && !e.Tx? && Benign(w, e)
    ensures WorldFunded(Step(w, e))
  {
    hide FundsOk, Benign;
    match e
    case AdvanceTime(_) => TimeKeepsFunds(w, e);
    case PayOutUnbonding(id) =>
      PayOutKeepsFunds(w.store, Held(w.chain.luna, SELF), w.chain.unbonding, w.chain.now, id);
    case ReceiveLuna(_, _) =>
      FundsGrow(w.store, Held(w.chain.luna, SELF), Held(Step(w, e).chain.luna, SELF), w.chain.unbonding, w.chain.now);
    case TransferLuna(_, _, _) =>
      FundsGrow(w.store, Held(w.chain.luna, SELF), Held(Step(w, e).chain.luna, SELF), w.chain.unbonding, w.chain.now);
    case SlashDelegation(_, _) => assert false by { assert Benign(w, e); NotSlash(w, e); }
    case SlashUnbonding(_, _) => assert false by { assert Benign(w, e); NotSlash(w, e); }
    case _ =>
  }

  lemma NotSlash(w: World, e: Event)
    requires Benign(w, e)
    ensures !e.SlashDelegation? && !e.SlashUnbonding?
  {
  }

  /** Every step of a slash-free run keeps the invariant. It lowers the rate only when there are no tokens, and then
      to one. */
  lemma StepKeepsSlashFreeOk(w: World, e: Event)
    requires SlashFreeOk(w) && Benign(w, e)
    ensures SlashFreeOk(Step(w, e))
    ensures Step(w, e).store.state.exchangeRate < w.store.state.exchangeRate ==>
              w.chain.supply == 0 && Step(w, e).store.state.exchangeRate == ONE
  {
    hide WorldOk, WorldPoolOk, WorldTracks, WorldCovered, WorldFunded, Transact, Benign, ChainStep;
    NotSlash(w, e);
    StepKeepsWorldOk(w, e);
    StepKeepsPool(w, e);
    if e.Tx? {
      if Accepted(w, e) {
        TransactKeepsCovered(w, e.sender, e.funds, e.call);
        TransactKeepsFunds(w, e.sender, e.funds, e.call);
      }
    } else {
      EnvironmentKeepsCovered(w, e);
      EnvironmentKeepsFunds(w, e);
    }
  }

  lemma InitialSlashFreeOk(w: World)
    requires Initial(w)
    ensures SlashFreeOk(w)
  {
    hide LedgerOk, ChainOk, ConfigOk;
    InitialWorldOk(w);
  }

  lemma {:induction false} RunKeepsSlashFreeOk(w: World, es: seq<Event>)
    requires SlashFreeOk(w) && SlashFreeRun(w, es)
    ensures SlashFreeOk(Run(w, es))
    decreases |es|
  {
    hide Step, SlashFreeOk, Benign;
    if es != [] {
      StepKeepsSlashFreeOk(w, es[0]);
      RunKeepsSlashFreeOk(Step(w, es[0]), es[1..]);
    }
  }

  // ---- What slash-free runs guarantee ----

  /** There are tokens in every world of the run but possibly the last. */
  ghost predicate TokensThroughout(w: World, es: seq<Event>)
    decreases |es|
  {
    es != [] ==> w.chain.supply > 0 && TokensThroughout(Step(w, es[0]), es[1..])
  }

  /** The exchange rate never falls in a slash-free run that keeps tokens in circulation. Whatever the run, the rate is
      positive and values the supply at no more than the stake; so there is stake as long as there are tokens. */
  lemma {:induction false} RateNeverFalls(w: World, es: seq<Event>)
    requires SlashFreeOk(w) && SlashFreeRun(w, es)
    ensures var s, t := w.store.state, Run(w, es).store.state; var supply := Run(w, es).chain.supply;
      && 0 < t.exchangeRate && t.exchangeRate * supply <= ONE * t.totalStaked
      && (supply > 0 ==> t.totalStaked > 0)
      && (TokensThroughout(w, es) ==> s.exchangeRate <= t.exchangeRate)
    decreases |es|
  {
    hide Step, WorldOk, WorldPoolOk, WorldTracks, WorldFunded, Benign;
    if es != [] {
      StepKeepsSlashFreeOk(w, es[0]);
      RateNeverFalls(Step(w, es[0]), es[1..]);
    } else if w.chain.supply > 0 {
      CoveredSupplyHasStake(w.store.state.exchangeRate, w.store.state.totalStaked, w.chain.supply);
    }
  }

  /** In every slash-free run from instantiation the tracked stakes are the delegations, nothing is delegated outside
      the pool, and a slashing check records no slash. */
  lemma TrackingIsExact(w: World, es: seq<Event>)
    requires Initial(w) && SlashFreeRun(w, es)
    ensures var end := Run(w, es);
      && (forall v | v in end.store.state.validators ::
            MetaOf(end.store.validatorMeta, v).staked == Held(end.chain.delegations, v))
      && (forall v | v !in end.store.state.validators :: Held(end.chain.delegations, v) == 0)
      && end.store.state.totalStaked == DelegatedSum(end.store.state.validators, end.chain.delegations)
      && (CheckSlashing(end.store, end.chain).Ok? ==>
            CheckSlashing(end.store, end.chain).value.validatorMeta == end.store.validatorMeta)
  {
    hide Run, Initial, WorldOk, WorldCovered, WorldFunded, CheckSlashing, NoDuplicates, StakedSum, DelegatedSum;
    InitialSlashFreeOk(w);
    RunKeepsSlashFreeOk(w, es);
    var end := Run(w, es);
    TotalIsDelegated(end.store, end.chain.delegations);
    if CheckSlashing(end.store, end.chain).Ok? {
      CheckKeepsMeta(end.store, end.chain);
    }
  }

  /** In every slash-free run from instantiation the balance covers the reconciled funds and the stake of all released
      batches that are not reconciled, and no batch is ever given less than its full stake, across any pagination and
      sequence of reconciliations. */
  lemma EveryBatchPaidInFull(w: World, es: seq<Event>)
    requires Initial(w) && SlashFreeRun(w, es)
    ensures var end := Run(w, es); var s := end.store;
      && (forall id | id in s.batches :: s.batches[id].unbondingSlashingRatio == ONE)
      && s.state.currentUndelegationBatchId >= 1
      && s.state.reconciledFundsToWithdraw
         + ReleasedStake(s.batches, end.chain.unbonding, s.state.lastReconciledBatchId,
                         s.state.currentUndelegationBatchId - 1)
         <= Held(end.chain.luna, SELF)
  {
    hide Run, Initial, WorldOk, WorldPoolOk, WorldTracks, WorldCovered, ReleasedStake;
    InitialSlashFreeOk(w);
    RunKeepsSlashFreeOk(w, es);
  }
}
