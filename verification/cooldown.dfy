/** How many batches can be unbonding at once. */
module Cooldown {
  import opened Decimals
  import opened Storage
  import opened Handlers
  import opened Messages
  import opened Machine
  import opened Effects
  import opened Ledger
  import opened Solvency

  /** The bounds kept on the cooldown and on the unbonding period, in nanoseconds. */
  const SHORTEST_COOLDOWN: nat := 258600 * NANOS
  const LONGEST_UNBONDING: nat := 1816199 * NANOS

  /** Closed batches were undelegated at least a cooldown apart, whatever the configuration was at the time. */
  ghost predicate Spaced(s: Store, now: nat) {
    && s.state.lastUndelegationTime <= now
    && forall id | id in s.batches && s.batches[id].estReleaseTime.Some? ::
         id < s.state.currentUndelegationBatchId
         && s.batches[id].estReleaseTime.value
            + (s.state.currentUndelegationBatchId - 1 - id) * SHORTEST_COOLDOWN
            <= s.state.lastUndelegationTime + LONGEST_UNBONDING
  }

  lemma QueueKeepsSpaced(s: Store, t: Store, now: nat, user: Addr, amount: nat, rate: nat)
    requires Spaced(s, now) && Queued(s, t, user, amount, rate)
    requires t.state.lastUndelegationTime == s.state.lastUndelegationTime
    ensures Spaced(t, now)
  {
  }

  lemma UndelegateKeepsSpaced(s: Store, t: Store, now: nat, rate: nat)
    requires BatchesInOrder(s) && Spaced(s, now) && ConfigOk(s.config)
    requires Undelegated(s, t, now, PlusSeconds(now, s.config.unbondingPeriod), rate)
    requires t.state.lastUndelegationTime == now
    requires PlusSeconds(s.state.lastUndelegationTime, s.config.undelegationCooldown) <= now
    ensures Spaced(t, now)
  {
    hide MulFloor;
  }

  lemma SyncedCallsKeepTime(s: Store, ch: Chain, sender: Addr, user: Addr, amount: nat, v: Addr, redel: Addr)
    ensures DepositSynced(s, ch, sender, amount).Ok? ==>
      DepositSynced(s, ch, sender, amount).value.store.state.lastUndelegationTime == s.state.lastUndelegationTime
    ensures ReinvestSynced(s, ch, sender).Ok? ==>
      ReinvestSynced(s, ch, sender).value.store.state.lastUndelegationTime == s.state.lastUndelegationTime
    ensures QueueSynced(s, user, amount).Ok? ==>
      QueueSynced(s, user, amount).value.store.state.lastUndelegationTime == s.state.lastUndelegationTime
    ensures RemoveSynced(s, ch, v, redel).Ok? ==>
      RemoveSynced(s, ch, v, redel).value.store.state.lastUndelegationTime == s.state.lastUndelegationTime
    ensures RebalanceSynced(s, ch, amount, v, redel).Ok? ==>
      RebalanceSynced(s, ch, amount, v, redel).value.store.state.lastUndelegationTime == s.state.lastUndelegationTime
  {
    hide ComputeDepositBreakdown, RewardFee, Selection.ValidatorForDeposit, IncreaseTrackedStake,
      DecreaseTrackedStake, CalculateExchangeRate, Without;
  }

  lemma UndelegateTime(s: Store, ch: Chain, sender: Addr)
    requires UndelegateSynced(s, ch, sender).Ok?
    ensures UndelegateSynced(s, ch, sender).value.store.state.lastUndelegationTime == ch.now
    ensures sender != s.config.manager
      ==> PlusSeconds(s.state.lastUndelegationTime, s.config.undelegationCooldown) <= ch.now
  {
    hide PlanUndelegation, MultiplyU128WithDecimal, DecreaseTrackedStakes;
  }

  lemma OtherCallsKeepTime(s: Store, ch: Chain, sender: Addr, funds: seq<Coin>, call: Call)
    requires !call.CallUndelegate? && Dispatch(s, ch, sender, funds, call).Ok?
    ensures Dispatch(s, ch, sender, funds, call).value.store.state.lastUndelegationTime == s.state.lastUndelegationTime
  {
    hide CheckSlashing, DepositSynced, ReinvestSynced, RemoveSynced, RebalanceSynced, QueueSynced,
      ReleasedUpTo, ExpectedStake, MarkReconciled, ComputeWithdrawableFunds;
    if CheckSlashing(s, ch).Ok? {
      CheckSlashingEffect(s, ch);
      var amount := match call
        case CallQueueUndelegation(a) => a
        case CallRebalancePool(a, _, _) => a
        case CallDeposit => SingleVaultFund(funds).GetOr(0)
        case _ => 0;
      var (v, redel) := match call
        case CallRemoveValidator(x, y) => (x, y)
        case CallRebalancePool(_, x, y) => (x, y)
        case _ => (0, 0);
      SyncedCallsKeepTime(CheckSlashing(s, ch).value, ch, sender, sender, amount, v, redel);
    }
  }

  lemma UndelegateCallKeepsSpaced(s: Store, ch: Chain, sender: Addr)
    requires BatchesInOrder(s) && Spaced(s, ch.now) && ConfigOk(s.config) && sender != s.config.manager
    requires UndelegateStakeHandler(s, ch, sender).Ok?
    ensures Spaced(UndelegateStakeHandler(s, ch, sender).value.store, ch.now)
  {
    hide CheckSlashing, UndelegateSynced, Undelegated, Spaced, BatchesInOrder;
    CheckSlashingEffect(s, ch);
    UndelegateEffect(s, ch, sender);
    UndelegateTime(CheckSlashing(s, ch).value, ch, sender);
    UndelegateKeepsSpaced(s, UndelegateStakeHandler(s, ch, sender).value.store, ch.now,
                          CheckSlashing(s, ch).value.state.exchangeRate);
  }

  lemma DispatchKeepsSpaced(s: Store, ch: Chain, sender: Addr, funds: seq<Coin>, call: Call)
    requires BatchesInOrder(s) && Spaced(s, ch.now) && ConfigOk(s.config)
    requires call.CallUndelegate? ==> sender != s.config.manager
    requires Dispatch(s, ch, sender, funds, call).Ok?
    ensures Spaced(Dispatch(s, ch, sender, funds, call).value.store, ch.now)
  {
    hide CheckSlashing, UndelegateStakeHandler, Deposit, Reinvest, RemoveValidatorFromPool, RebalancePool,
      QueueUndelegation, WithdrawFundsToWallet, ReconcileFunds, RedeemRewards, AddValidator, UpdateConfig,
      UpdateOperationFlags, ExpectedStake, ReleasedUpTo, BatchesInOrder, ConfigOk, MulFloor;
    var t := Dispatch(s, ch, sender, funds, call).value.store;
    if !call.CallUndelegate? {
      OtherCallsKeepTime(s, ch, sender, funds, call);
    }
    match call
    case CallUndelegate => UndelegateCallKeepsSpaced(s, ch, sender);
    case CallQueueUndelegation(amount) =>
      QueueEffect(s, ch, sender, amount);
      QueueKeepsSpaced(s, t, ch.now, sender, amount, CheckSlashing(s, ch).value.state.exchangeRate);
    case CallReconcileFunds => ReconcileEffect(s, ch);
    case CallWithdraw(id) => WithdrawEffect(s, sender, id);
    case _ => OtherCallsKeepLedger(s, ch, sender, funds, call);
  }

  /** In `es`, run from `w`, the manager never undelegates. */
  ghost predicate NoManagerUndelegation(w: World, es: seq<Event>)
    decreases |es|
  {
    es != [] ==>
      && !(es[0].Tx? && es[0].call.CallUndelegate? && es[0].sender == w.store.config.manager)
      && NoManagerUndelegation(Step(w, es[0]), es[1..])
  }

  lemma StepKeepsSpaced(w: World, e: Event)
    requires WorldOk(w) && Spaced(w.store, w.chain.now) && NoManagerUndelegation(w, [e])
    ensures Spaced(Step(w, e).store, Step(w, e).chain.now)
  {
    hide Dispatch, ExecuteAll, Spaced, LedgerOk, ChainOk, NoManagerUndelegation;
    assert !(e.Tx? && e.call.CallUndelegate? && e.sender == w.store.config.manager) by {
      NotByManager(w, [e]);
    }
    if Accepted(w, e) {
      var before := Attach(w.chain, e.sender, e.funds, e.call).value;
      InOrder(w);
      DispatchKeepsSpaced(w.store, before, e.sender, e.funds, e.call);
      ExecuteAllKeepsTime(before, Dispatch(w.store, before, e.sender, e.funds, e.call).value.messages);
    } else {
      SpacedLater(w.store, w.chain.now, Step(w, e).chain.now);
    }
  }

  lemma NotByManager(w: World, es: seq<Event>)
    requires es != [] && NoManagerUndelegation(w, es)
    ensures !(es[0].Tx? && es[0].call.CallUndelegate? && es[0].sender == w.store.config.manager)
  {
    hide Step;
  }

  lemma InOrder(w: World)
    requires WorldOk(w)
    ensures BatchesInOrder(w.store) && ConfigOk(w.store.config)
  {
    hide OutstandingClaims, TokensAddUp, ChainOk;
  }

  lemma SpacedLater(s: Store, now: nat, later: nat)
    requires Spaced(s, now) && now <= later
    ensures Spaced(s, later)
  {
  }

  lemma {:induction false} ExecuteAllKeepsTime(ch: Chain, ms: seq<Message>)
    requires ExecuteAll(ch, ms).Ok?
    ensures ExecuteAll(ch, ms).value.now == ch.now
    decreases |ms|
  {
    if ms != [] {
      ExecuteAllKeepsTime(Execute(ch, ms[0]).value, ms[1..]);
    }
  }

  lemma {:induction false} RunKeepsSpaced(w: World, es: seq<Event>)
    requires WorldOk(w) && Spaced(w.store, w.chain.now) && NoManagerUndelegation(w, es)
    ensures Spaced(Run(w, es).store, Run(w, es).chain.now)
    decreases |es|
  {
    hide Step, Spaced, WorldOk;
    if es != [] {
      assert NoManagerUndelegation(w, [es[0]]) by {
        assert [es[0]][1..] == [];
        assert NoManagerUndelegation(Step(w, es[0]), []);
      }
      StepKeepsSpaced(w, es[0]);
      StepKeepsWorldOk(w, es[0]);
      RunKeepsSpaced(Step(w, es[0]), es[1..]);
    }
  }

  /** The batches still waiting for their release time. */
  ghost function Unbonding(w: World): set<BatchId> {
    set id | id in w.store.batches
             && w.store.batches[id].estReleaseTime.Some? && w.store.batches[id].estReleaseTime.value > w.chain.now
  }

  lemma {:induction false} RangeSize(lo: nat, n: nat, ids: set<BatchId>)
    requires forall id | id in ids :: lo <= id < lo + n
    ensures |ids| <= n
  {
    if n > 0 {
      RangeSize(lo, n - 1, ids - {lo + n - 1});
    } else {
      assert ids == {};
    }
  }

  lemma SpacedBoundsUnbonding(w: World)
    requires Spaced(w.store, w.chain.now)
    ensures |Unbonding(w)| <= 8
  {
    var cur := w.store.state.currentUndelegationBatchId;
    var lo := if cur < 8 then 0 else cur - 8;
    forall id | id in Unbonding(w) ensures lo <= id < lo + 8 {
    }
    RangeSize(lo, 8, Unbonding(w));
  }

  /** In every run from instantiation in which the manager never undelegates, whatever configuration updates occur, at
      most eight batches are unbonding at any time. */
  lemma AtMostEightUnbonding(w: World, es: seq<Event>)
    requires Initial(w) && NoManagerUndelegation(w, es)
    ensures |Unbonding(Run(w, es))| <= 8
  {
    hide Run, NoManagerUndelegation, WorldOk, Unbonding;
    InitialWorldOk(w);
    InitialSpaced(w);
    RunKeepsSpaced(w, es);
    SpacedBoundsUnbonding(Run(w, es));
  }

  lemma InitialSpaced(w: World)
    requires Initial(w)
    ensures Spaced(w.store, w.chain.now)
  {
  }
}
