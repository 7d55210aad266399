/** From deposit to claim: what a depositor gets back. */
module RoundTrip {
  import opened Decimals
  import opened Sums
  import opened Storage
  import opened Handlers
  import opened Messages
  import opened Machine
  import opened Claims
  import opened Effects
  import opened Ledger
  import opened LedgerSteps
  import opened Flows
  import opened Solvency
  import opened Frozen
  import opened Pool
  import opened PoolRuns
  import opened Rates
  import opened SlashFreeRates
  import opened NoHaircut
  import opened SlashFree

  // ---- Arithmetic ----

  /** What rounding can cost on the way: the deposit buys `floor(staked * 10^18 / rate)` tokens, and those are worth at
      least the stake less `ceil((rate - 1) / 10^18)` at the same rate, and never more than the stake. */
  lemma TokensWorthStake(staked: nat, rate: nat)
    requires rate > 0
    ensures var minted := staked * ONE / rate;
      && staked <= MulFloor(minted, rate) + (rate + ONE - 2) / ONE
      && MulFloor(minted, rate) <= staked
  {
    var minted := staked * ONE / rate;
    var worth := MulFloor(minted, rate);
    var loss := (rate + ONE - 2) / ONE;
    FloorBounds(staked * ONE, rate);
    FloorBounds(minted * rate, ONE);
    FloorBounds(rate + ONE - 2, ONE);
    assert minted * rate == rate * minted;
  }

  // ---- The deposit ----

  /** A deposit in a slash-free run: what is staked joins the total, and the tokens minted for it are
      `floor(staked * 10^18 / rate)` at the rate that is then stored. */
  lemma DepositMints(w: World, user: Addr, funds: seq<Coin>)
    requires SlashFreeOk(w) && Accepted(w, Tx(user, funds, CallDeposit))
    ensures var t := Step(w, Tx(user, funds, CallDeposit));
      && t.store.state.totalStaked >= w.store.state.totalStaked
      && t.store.state.exchangeRate > 0
      && t.chain.supply == w.chain.supply
                           + (t.store.state.totalStaked - w.store.state.totalStaked) * ONE / t.store.state.exchangeRate
      && VaultAmount(funds) == (t.store.state.totalStaked - w.store.state.totalStaked)
                               + MulFloor(VaultAmount(funds), w.store.config.protocolDepositFee)
  {
    hide Attach, ExecuteAll, CheckSlashing, DepositSynced, WorldFunded, LedgerOk, PoolOk, Tracks, Total, TotalMinted,
      TotalBurnt, VaultAmount, MulFloor;
    var before := Attach(w.chain, user, funds, CallDeposit).value;
    AttachKeepsChainOk(w, before, user, funds, CallDeposit);
    var amount := SingleVaultFund(funds).value;
    VaultAmountOfSingle(funds);
    var s1 := CheckSlashing(w.store, before).value;
    CheckWithoutSlashing(w.store, before);
    var r := DepositSynced(s1, before, user, amount).value;
    DepositRate(s1, before, user, amount);
    DepositIsBalanced(s1, before, user, amount);
    DepositStakes(s1, before, user, amount);
    DepositBreakdownIs(s1, amount);
    ExecuteAllSupply(before, r.messages);
  }

  lemma DepositStakes(s: Store, ch: Chain, sender: Addr, amount: nat)
    requires DepositSynced(s, ch, sender, amount).Ok?
    ensures ComputeDepositBreakdown(s, amount).Ok?
    ensures DepositSynced(s, ch, sender, amount).value.store.state.totalStaked
         == s.state.totalStaked + ComputeDepositBreakdown(s, amount).value.stakedAmount
    ensures DepositSynced(s, ch, sender, amount).value.store.state.exchangeRate == s.state.exchangeRate
  {
    hide Selection.ValidatorForDeposit, IncreaseTrackedStake, ComputeDepositBreakdown;
  }

  // ---- The queued record ----

  /** A record of the open batch stays, and does not shrink, until its batch is closed at the rate of that moment. */
  lemma OpenRecordKept(s: Store, withdrawn: map<BatchId, nat>, ch: Chain, sender: Addr, funds: seq<Coin>, call: Call,
                       k: (Addr, BatchId))
    requires LedgerOk(s, withdrawn) && k in s.users && k.1 == s.state.currentUndelegationBatchId
    requires Dispatch(s, ch, sender, funds, call).Ok?
    ensures var t := Dispatch(s, ch, sender, funds, call).value.store;
      && k in t.users && s.users[k].tokenAmount <= t.users[k].tokenAmount
      && (t.state.currentUndelegationBatchId == k.1
          || (&& call.CallUndelegate? && CheckSlashing(s, ch).Ok?
              && t.state.currentUndelegationBatchId == k.1 + 1
              && BatchAt(t.batches, k.1).undelegationEr == CheckSlashing(s, ch).value.state.exchangeRate))
  {
    hide CheckSlashing, DepositSynced, ReinvestSynced, RemoveSynced, RebalanceSynced, QueueSynced, UndelegateSynced,
      ReconcileFunds, WithdrawFundsToWallet, TokensAddUp, OutstandingClaims, RedeemRewards, AddValidator, UpdateConfig,
      UpdateOperationFlags, MulFloor, MarkReconciled, ExpectedStake, ReleasedUpTo;
    match call
    case CallQueueUndelegation(amount) => QueueEffect(s, ch, sender, amount);
    case CallUndelegate => UndelegateEffect(s, ch, sender);
    case CallReconcileFunds => ReconcileEffect(s, ch);
    case CallWithdraw(id) => WithdrawEffect(s, sender, id);
    case _ => OtherCallsKeepLedger(s, ch, sender, funds, call);
  }

  /** The record `k` holds at least `amount` tokens that will be, or were, undelegated at `rate` or more. */
  ghost predicate Carries(w: World, k: (Addr, BatchId), amount: nat, rate: nat) {
    var s := w.store;
    && 1 <= k.1 <= s.state.currentUndelegationBatchId
    && (k in s.users ==> amount <= s.users[k].tokenAmount)
    && (k.1 == s.state.currentUndelegationBatchId ==> k in s.users && rate <= s.state.exchangeRate)
    && (k.1 < s.state.currentUndelegationBatchId ==> rate <= BatchAt(s.batches, k.1).undelegationEr)
  }

  /** Queued tokens are tokens in circulation. */
  lemma QueuedTokensExist(w: World, k: (Addr, BatchId), amount: nat, rate: nat)
    requires WorldOk(w) && Carries(w, k, amount, rate) && k.1 == w.store.state.currentUndelegationBatchId
    ensures amount <= w.chain.supply
  {
    hide Total, BatchTokens, Slice, OutstandingClaims;
    var s := w.store;
    RecordAtMostBatch(s.users, k);
    OpenBatchInSupply(s, w.chain);
    assert BatchTokens(s.users, k.1) <= s.batches[k.1].undelegatedTokens;
  }

  lemma OpenStepKeepsCarries(w: World, e: Event, k: (Addr, BatchId), amount: nat, rate: nat)
    requires SlashFreeOk(w) && Benign(w, e) && Carries(w, k, amount, rate) && amount > 0
    requires k.1 == w.store.state.currentUndelegationBatchId
    ensures Carries(Step(w, e), k, amount, rate)
  {
    hide Attach, Dispatch, ExecuteAll, LedgerOk, ChainOk, ConfigOk, PoolOk, Tracks, RateCovered, FundsOk, Benign,
      CheckSlashing, ChainStep;
    QueuedTokensExist(w, k, amount, rate);
    StepKeepsSlashFreeOk(w, e);
    if Accepted(w, e) {
      var before := Attach(w.chain, e.sender, e.funds, e.call).value;
      AttachKeepsChainOk(w, before, e.sender, e.funds, e.call);
      OpenRecordKept(w.store, w.withdrawn, before, e.sender, e.funds, e.call, k);
      if CheckSlashing(w.store, before).Ok? {
        CheckWithoutSlashing(w.store, before);
      }
    }
  }

  lemma ClosedStepKeepsCarries(w: World, e: Event, k: (Addr, BatchId), amount: nat, rate: nat)
    requires WorldOk(w) && Carries(w, k, amount, rate) && k.1 < w.store.state.currentUndelegationBatchId
    ensures Carries(Step(w, e), k, amount, rate)
  {
    hide Step, TokensAddUp, OutstandingClaims, ChainOk;
    StepIsLater(w, e);
  }

  lemma {:induction false} RunKeepsCarries(w: World, es: seq<Event>, k: (Addr, BatchId), amount: nat, rate: nat)
    requires SlashFreeOk(w) && SlashFreeRun(w, es) && Carries(w, k, amount, rate) && amount > 0
    ensures Carries(Run(w, es), k, amount, rate)
    decreases |es|
  {
    hide Step, WorldOk, WorldPoolOk, WorldTracks, WorldCovered, WorldFunded, Benign, Carries;
    if es != [] {
      StepKeepsSlashFreeOk(w, es[0]);
      if k.1 < w.store.state.currentUndelegationBatchId {
        ClosedStepKeepsCarries(w, es[0], k, amount, rate);
      } else {
        InRange(w, k, amount, rate);
        OpenStepKeepsCarries(w, es[0], k, amount, rate);
      }
      RunKeepsCarries(Step(w, es[0]), es[1..], k, amount, rate);
    }
  }

  lemma InRange(w: World, k: (Addr, BatchId), amount: nat, rate: nat)
    requires Carries(w, k, amount, rate)
    ensures k.1 <= w.store.state.currentUndelegationBatchId
  {
  }

  /** Queueing starts the record. */
  lemma QueueStartsRecord(w: World, holder: Addr, funds: seq<Coin>, amount: nat, rate: nat)
    requires SlashFreeOk(w) && rate <= w.store.state.exchangeRate
    requires Accepted(w, Tx(holder, funds, CallQueueUndelegation(amount)))
    ensures amount > 0
    ensures Carries(Step(w, Tx(holder, funds, CallQueueUndelegation(amount))),
                   (holder, w.store.state.currentUndelegationBatchId), amount, rate)
  {
    hide Attach, ExecuteAll, QueueUndelegation, CheckSlashing, PoolOk, Tracks, RateCovered, FundsOk, TokensAddUp,
      OutstandingClaims, ChainOk;
    var e := Tx(holder, funds, CallQueueUndelegation(amount));
    HolderHasTokens(w, holder, funds, amount);
    var before := Attach(w.chain, holder, funds, e.call).value;
    QueueEffect(w.store, before, holder, amount);
    StepKeepsSlashFreeOk(w, e);
  }

  lemma HolderHasTokens(w: World, holder: Addr, funds: seq<Coin>, amount: nat)
    requires WorldOk(w) && Attach(w.chain, holder, funds, CallQueueUndelegation(amount)).Ok?
    ensures 0 < amount <= w.chain.supply
  {
    hide LedgerOk, ConfigOk, Total;
    HeldAtMostTotal(w.chain.tokens, holder);
  }

  // ---- The round trip ----

  /** A claim on a batch paid in full is the stake its tokens were undelegated for. */
  lemma ClaimAtRate(w: World, k: (Addr, BatchId), amount: nat, rate: nat)
    requires SlashFreeOk(w) && Carries(w, k, amount, rate)
    requires k in w.store.users && k.1 <= w.store.state.lastReconciledBatchId
    ensures k.1 in w.store.batches
    ensures RecordClaim(w.store, k) == MulFloor(w.store.users[k].tokenAmount, w.store.batches[k.1].undelegationEr)
    ensures MulFloor(amount, rate) <= RecordClaim(w.store, k)
  {
    hide MulFloor, WorldPoolOk, WorldTracks, WorldCovered, FundsArrived, UnbondingOk, TokensAddUp, OutstandingClaims,
      ChainOk;
    var tokens := w.store.users[k].tokenAmount;
    MulFloorOne(MulFloor(tokens, w.store.batches[k.1].undelegationEr));
    MulFloorMonotone(amount, tokens, rate, w.store.batches[k.1].undelegationEr);
  }

  /** In a slash-free run, staking `a` by a deposit at the rate `er`, later queueing the tokens minted for it while
      tokens stay in circulation, undelegating and reconciling leads to a claim, before fees, of at least
      `a - ceil((er - 1) / 10^18)`; and of at most `a` if those tokens are alone in the record and are undelegated at
      the same rate. */
  lemma DepositRoundTrip(w0: World, user: Addr, funds: seq<Coin>, es1: seq<Event>, holder: Addr, queueFunds: seq<Coin>,
                         amount: nat, es2: seq<Event>)
    requires SlashFreeOk(w0)
    requires Accepted(w0, Tx(user, funds, CallDeposit))
    requires var w1 := Step(w0, Tx(user, funds, CallDeposit));
      && SlashFreeRun(w1, es1) && TokensThroughout(w1, es1)
      && amount == w1.chain.supply - w0.chain.supply
      && var w2 := Run(w1, es1);
      && Accepted(w2, Tx(holder, queueFunds, CallQueueUndelegation(amount)))
      && var w3 := Step(w2, Tx(holder, queueFunds, CallQueueUndelegation(amount)));
      && SlashFreeRun(w3, es2)
      && var k := (holder, w2.store.state.currentUndelegationBatchId);
      && k in Run(w3, es2).store.users && k.1 <= Run(w3, es2).store.state.lastReconciledBatchId
    ensures var w1 := Step(w0, Tx(user, funds, CallDeposit));
      var a := w1.store.state.totalStaked - w0.store.state.totalStaked;
      var er := w1.store.state.exchangeRate;
      var w2 := Run(w1, es1);
      var w4 := Run(Step(w2, Tx(holder, queueFunds, CallQueueUndelegation(amount))), es2);
      var k := (holder, w2.store.state.currentUndelegationBatchId);
      && er > 0 && k.1 in w4.store.batches
      && a <= RecordClaim(w4.store, k) + (er + ONE - 2) / ONE
      && (w4.store.users[k].tokenAmount == amount && w4.store.batches[k.1].undelegationEr == er ==>
            RecordClaim(w4.store, k) <= a)
  {
    hide Step, Run, Accepted, SlashFreeOk, SlashFreeRun, TokensThroughout, Carries, MulFloor, RecordClaim;
    var w1 := Step(w0, Tx(user, funds, CallDeposit));
    var a := w1.store.state.totalStaked - w0.store.state.totalStaked;
    var er := w1.store.state.exchangeRate;
    DepositMints(w0, user, funds);
    TransactionIsBenign(w0, Tx(user, funds, CallDeposit));
    RunKeepsSlashFreeOk(w1, es1);
    RateNeverFalls(w1, es1);
    var w2 := Run(w1, es1);
    QueueStartsRecord(w2, holder, queueFunds, amount, er);
    TransactionIsBenign(w2, Tx(holder, queueFunds, CallQueueUndelegation(amount)));
    var w3 := Step(w2, Tx(holder, queueFunds, CallQueueUndelegation(amount)));
    var k := (holder, w2.store.state.currentUndelegationBatchId);
    RunKeepsCarries(w3, es2, k, amount, er);
    RunKeepsSlashFreeOk(w3, es2);
    ClaimAtRate(Run(w3, es2), k, amount, er);
    TokensWorthStake(a, er);
  }

  lemma TransactionIsBenign(w: World, e: Event)
    requires SlashFreeOk(w) && e.Tx?
    ensures SlashFreeOk(Step(w, e))
  {
    StepKeepsSlashFreeOk(w, e);
  }
}
