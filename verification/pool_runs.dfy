/** Every call keeps the pool in order, in every run; and calls that check for slashing end with every tracked stake
    equal to the delegation on the chain. */
module PoolRuns {
  import opened Results
  import opened Decimals
  import opened Sums
  import opened Storage
  import opened Selection
  import opened SelectionProofs
  import opened Handlers
  import opened Messages
  import opened Machine
  import opened Pool

  lemma SameHeldSamePool(s: Store, ds: map<Addr, nat>, es: map<Addr, nat>)
    requires PoolOk(s, ds) && forall v :: Held(es, v) == Held(ds, v)
    ensures PoolOk(s, es) && (Tracks(s, ds) ==> Tracks(s, es))
  {
  }

  // ---- Deposits and rewards ----

  lemma DepositKeepsPool(s: Store, ch: Chain, sender: Addr, amount: nat, after: map<Addr, nat>)
    requires PoolOk(s, ch.delegations) && Tracks(s, ch.delegations) && DepositSynced(s, ch, sender, amount).Ok?
    requires StakingEffects(ch.delegations, DepositSynced(s, ch, sender, amount).value.messages) == Ok(after)
    ensures var t := DepositSynced(s, ch, sender, amount).value.store; PoolOk(t, after) && Tracks(t, after)
  {
    hide ComputeDepositBreakdown, ValidatorForDeposit, IncreaseTrackedStake, PoolOk, Tracks, StakingEffects, Credit;
    var ds := ch.delegations;
    var t := DepositSynced(s, ch, sender, amount).value.store;
    var b := ComputeDepositBreakdown(s, amount).value;
    var feeTo := s.config.protocolFeeContract;
    SendsDoNotStake(feeTo, b.protocolFee);
    SendsDoNotStake(sender, b.tokensToMint);
    if b.stakedAmount == 0 {
      StakingAppend(ds, SendMessages(feeTo, b.protocolFee), MintMessages(sender, b.tokensToMint));
      SamePool(s, t, ds);
    } else {
      var v := ValidatorForDeposit(s.state.validators, ch.bonded, ds).value;
      DepositGoesToLeastDelegated(s.state.validators, ch.bonded, ds);
      StakingMiddle(ds, SendMessages(feeTo, b.protocolFee), Delegate(v, b.stakedAmount),
                    MintMessages(sender, b.tokensToMint));
      IncreaseKeepsPool(s, t, ds, v, b.stakedAmount);
    }
  }

  lemma ReinvestKeepsPool(s: Store, ch: Chain, sender: Addr, after: map<Addr, nat>)
    requires PoolOk(s, ch.delegations) && Tracks(s, ch.delegations) && ReinvestSynced(s, ch, sender).Ok?
    requires StakingEffects(ch.delegations, ReinvestSynced(s, ch, sender).value.messages) == Ok(after)
    ensures var t := ReinvestSynced(s, ch, sender).value.store; PoolOk(t, after) && Tracks(t, after)
  {
    hide RewardFee, ValidatorForDeposit, IncreaseTrackedStake, CalculateExchangeRate, PoolOk, Tracks, StakingEffects;
    var ds := ch.delegations;
    var t := ReinvestSynced(s, ch, sender).value.store;
    var ms := ReinvestSynced(s, ch, sender).value.messages;
    var v := ValidatorForDeposit(s.state.validators, ch.bonded, ds).value;
    var reward := ms[0].reward;
    DepositGoesToLeastDelegated(s.state.validators, ch.bonded, ds);
    IncreaseKeepsPool(s, t, ds, v, reward);
    assert ms == [ms[0]] + DelegateMessages(v, reward);
    StakingAppend(ds, [ms[0]], DelegateMessages(v, reward));
    StakingOne(ds, ms[0]);
    StakingOne(ds, Delegate(v, reward));
    if reward == 0 {
      assert after == ds by { assert StakingEffects(ds, []) == Ok(ds) by { NoMessages(ds); } }
      SameHeldSamePool(t, Credit(ds, v, 0), ds);
    }
  }

  lemma NoMessages(ds: map<Addr, nat>)
    ensures StakingEffects(ds, []) == Ok(ds)
  {
  }

  // ---- Pool changes ----

  /** Removing a member hands its stake to another one. */
  lemma RemoveMember(s: Store, t: Store, ds: map<Addr, nat>, after: map<Addr, nat>, v: Addr,
                     meta: map<Addr, VMeta>)
    requires PoolOk(s, ds) && Tracks(s, ds) && v in s.state.validators
    requires NoDuplicates(s.state.validators) && (forall u :: u in meta <==> u in s.state.validators)
    requires MetaOf(meta, v).staked == Held(ds, v)
    requires StakedSum(s.state.validators, meta) == s.state.totalStaked + Held(ds, v)
    requires forall u | u in s.state.validators && u != v :: MetaOf(meta, u).staked == Held(after, u)
    requires forall u | u !in s.state.validators || u == v :: Held(after, u) == 0
    requires t.validatorMeta == meta - {v} && t.state.validators == Without(s.state.validators, v)
    requires t.state.totalStaked == s.state.totalStaked
    ensures PoolOk(t, after) && Tracks(t, after)
  {
    var pool := s.state.validators;
    WithoutMembers(pool, v);
    StakedSumWithout(pool, meta, v);
    StakedSumFrame(Without(pool, v), meta, meta - {v});
  }

  lemma RemoveWithoutDelegation(s: Store, ch: Chain, v: Addr, redel: Addr)
    requires PoolOk(s, ch.delegations) && Tracks(s, ch.delegations) && RemoveSynced(s, ch, v, redel).Ok?
    requires Held(ch.delegations, v) == 0
    ensures var r := RemoveSynced(s, ch, v, redel).value;
      r.messages == [] && PoolOk(r.store, ch.delegations) && Tracks(r.store, ch.delegations)
  {
    hide Without, StakedSum;
    var r := RemoveSynced(s, ch, v, redel).value;
    var meta := if v in ch.delegations then IncreaseTrackedStake(s.validatorMeta, redel, 0).value else s.validatorMeta;
    assert meta == s.validatorMeta;
    RemoveMember(s, r.store, ch.delegations, ch.delegations, v, meta);
  }

  lemma RemoveWithDelegation(s: Store, ch: Chain, v: Addr, redel: Addr, after: map<Addr, nat>)
    requires PoolOk(s, ch.delegations) && Tracks(s, ch.delegations) && RemoveSynced(s, ch, v, redel).Ok?
    requires Held(ch.delegations, v) > 0
    requires StakingEffects(ch.delegations, RemoveSynced(s, ch, v, redel).value.messages) == Ok(after)
    ensures var t := RemoveSynced(s, ch, v, redel).value.store; PoolOk(t, after) && Tracks(t, after)
  {
    hide Without, StakedSum, StakingEffects;
    var ds := ch.delegations;
    var r := RemoveSynced(s, ch, v, redel).value;
    var meta := IncreaseTrackedStake(s.validatorMeta, redel, ds[v]).value;
    StakingOne(ds, Redelegate(v, redel, ds[v]));
    StakedSumUpdate(s.state.validators, s.validatorMeta, redel, meta[redel]);
    RemoveMember(s, r.store, ds, after, v, meta);
  }

  lemma RebalanceKeepsPool(s: Store, ch: Chain, amount: nat, v: Addr, redel: Addr, after: map<Addr, nat>)
    requires PoolOk(s, ch.delegations) && Tracks(s, ch.delegations) && RebalanceSynced(s, ch, amount, v, redel).Ok?
    requires StakingEffects(ch.delegations, RebalanceSynced(s, ch, amount, v, redel).value.messages) == Ok(after)
    ensures var t := RebalanceSynced(s, ch, amount, v, redel).value.store; PoolOk(t, after) && Tracks(t, after)
  {
    hide PoolOk, Tracks, StakingEffects, IncreaseTrackedStake, DecreaseTrackedStake;
    StakingOne(ch.delegations, Redelegate(v, redel, amount));
    MoveKeepsPool(s, RebalanceSynced(s, ch, amount, v, redel).value.store, ch.delegations, v, redel, amount);
  }

  lemma StakedSumSnoc(pool: seq<Addr>, v: Addr, meta: map<Addr, VMeta>)
    requires NoDuplicates(pool) && v !in pool
    ensures NoDuplicates(pool + [v])
    ensures StakedSum(pool + [v], meta) == StakedSum(pool, meta) + MetaOf(meta, v).staked
  {
    assert (pool + [v])[..|pool|] == pool;
  }

  lemma AddKeepsPool(s: Store, ch: Chain, sender: Addr, v: Addr)
    requires PoolOk(s, ch.delegations) && AddValidator(s, ch, sender, v).Ok?
    ensures var r := AddValidator(s, ch, sender, v).value;
      && r.messages == [] && PoolOk(r.store, ch.delegations)
      && (Tracks(s, ch.delegations) ==> Tracks(r.store, ch.delegations))
  {
    hide StakedSum, NoDuplicates;
    var pool := s.state.validators;
    var t := AddValidator(s, ch, sender, v).value.store;
    StakedSumSnoc(pool, v, t.validatorMeta);
    StakedSumFrame(pool, s.validatorMeta, t.validatorMeta);
  }

  // ---- Undelegation ----

  lemma PlanIsExact(pool: seq<Addr>, ch: Chain, stake: nat)
    requires PlanUndelegation(pool, ch, stake).Ok?
    ensures var taken := PlanUndelegation(pool, ch, stake).value;
      && PlanSum(taken) == stake <= DelegatedSum(pool, ch.delegations)
      && forall i | 0 <= i < |taken| :: taken[i].0 in pool
  {
    hide GreedyPlan, Active, ActiveValidatorsSortedByStake, DelegatedSum, PlanSum;
    GreedyIsExact(pool, ch.bonded, ch.delegations, stake);
    ActiveSumAtMostPoolSum(pool, ch.bonded, ch.delegations);
  }

  lemma UndelegateKeepsPool(s: Store, ch: Chain, sender: Addr, after: map<Addr, nat>)
    requires PoolOk(s, ch.delegations) && Tracks(s, ch.delegations) && UndelegateSynced(s, ch, sender).Ok?
    requires StakingEffects(ch.delegations, UndelegateSynced(s, ch, sender).value.messages) == Ok(after)
    ensures var t := UndelegateSynced(s, ch, sender).value.store; PoolOk(t, after) && Tracks(t, after)
  {
    hide PoolOk, Tracks, StakingEffects, PlanUndelegation, MulFloor, DecreaseTrackedStakes, UndelegateMessages,
      DelegatedSum, PlanSum;
    var ds := ch.delegations;
    var t := UndelegateSynced(s, ch, sender).value.store;
    var id := s.state.currentUndelegationBatchId;
    var b := s.batches[id];
    var stake := MultiplyU128WithDecimal(b.undelegatedTokens, s.state.exchangeRate).value;
    var taken := PlanUndelegation(s.state.validators, ch, stake).value;
    PlanIsExact(s.state.validators, ch, stake);
    TotalIsDelegated(s, ds);
    StakingAppend(ds, UndelegateMessages(taken, id), [BurnTokens(b.undelegatedTokens)]);
    var mid := StakingEffects(ds, UndelegateMessages(taken, id)).value;
    StakingOne(mid, BurnTokens(b.undelegatedTokens));
    DecreasesKeepPool(s, t, ds, taken, id);
  }

  lemma TotalIsDelegated(s: Store, ds: map<Addr, nat>)
    requires PoolOk(s, ds) && Tracks(s, ds)
    ensures s.state.totalStaked == DelegatedSum(s.state.validators, ds)
  {
    StakedSumIsDelegated(s.state.validators, s.validatorMeta, ds);
  }

  // ---- All calls ----

  /** The calls that start with a slashing check. */
  predicate ChecksSlashing(call: Call) {
    call.CallDeposit? || call.CallReinvest? || call.CallRedeemRewards? || call.CallQueueUndelegation?
    || call.CallUndelegate? || call.CallRemoveValidator? || call.CallRebalancePool?
  }

  lemma CheckingCallsKeepPool(s: Store, ch: Chain, sender: Addr, funds: seq<Coin>, call: Call, after: map<Addr, nat>)
    requires PoolOk(s, ch.delegations) && ChecksSlashing(call) && Dispatch(s, ch, sender, funds, call).Ok?
    requires StakingEffects(ch.delegations, Dispatch(s, ch, sender, funds, call).value.messages) == Ok(after)
    ensures var t := Dispatch(s, ch, sender, funds, call).value.store; PoolOk(t, after) && Tracks(t, after)
  {
    hide PoolOk, Tracks, CheckSlashing, DepositSynced, ReinvestSynced, RemoveSynced, RebalanceSynced, QueueSynced,
      UndelegateSynced, StakingEffects;
    var s1 := CheckSlashing(s, ch).value;
    CheckSlashingTracks(s, ch);
    NoMessages(ch.delegations);
    match call
    case CallDeposit => DepositKeepsPool(s1, ch, sender, SingleVaultFund(funds).value, after);
    case CallReinvest => ReinvestKeepsPool(s1, ch, sender, after);
    case CallQueueUndelegation(amount) => QueueKeepsPool(s1, ch.delegations, sender, amount);
    case CallUndelegate => UndelegateKeepsPool(s1, ch, sender, after);
    case CallRemoveValidator(v, redel) =>
      if Held(ch.delegations, v) == 0 {
        RemoveWithoutDelegation(s1, ch, v, redel);
      } else {
        RemoveWithDelegation(s1, ch, v, redel, after);
      }
    case CallRebalancePool(amount, v, redel) => RebalanceKeepsPool(s1, ch, amount, v, redel, after);
    case CallRedeemRewards =>
  }

  lemma QueueKeepsPool(s: Store, ds: map<Addr, nat>, user: Addr, amount: nat)
    requires PoolOk(s, ds) && Tracks(s, ds) && QueueSynced(s, user, amount).Ok?
    ensures var r := QueueSynced(s, user, amount).value;
      r.messages == [] && PoolOk(r.store, ds) && Tracks(r.store, ds)
  {
    hide PoolOk, Tracks;
    SamePool(s, QueueSynced(s, user, amount).value.store, ds);
  }

  lemma OtherCallsKeepPool(s: Store, ch: Chain, sender: Addr, funds: seq<Coin>, call: Call)
    requires PoolOk(s, ch.delegations) && !ChecksSlashing(call) && Dispatch(s, ch, sender, funds, call).Ok?
    ensures var r := Dispatch(s, ch, sender, funds, call).value;
      && PoolOk(r.store, ch.delegations)
      && (Tracks(s, ch.delegations) ==> Tracks(r.store, ch.delegations))
      && (forall ds: map<Addr, nat> :: StakingEffects(ds, r.messages) == Ok(ds))
  {
    hide PoolOk, Tracks, AddValidator, StakingEffects, ComputeWithdrawableFunds, SendMessages, ReleasedUpTo,
      ExpectedStake, MarkReconciled, Deposit, Reinvest, RedeemRewards, QueueUndelegation, UndelegateStakeHandler,
      RemoveValidatorFromPool, RebalancePool;
    var r := Dispatch(s, ch, sender, funds, call).value;
    if call.CallAddValidator? {
      AddKeepsPool(s, ch, sender, call.v);
    } else {
      SamePool(s, r.store, ch.delegations);
    }
    forall ds: map<Addr, nat> ensures StakingEffects(ds, r.messages) == Ok(ds) {
      if call.CallWithdraw? {
        var c := ComputeWithdrawableFunds(s, call.id, sender).value;
        SendsDoNotStake(sender, c.userWithdrawalAmount);
        SendsDoNotStake(s.config.protocolFeeContract, c.protocolFee);
        StakingAppend(ds, SendMessages(sender, c.userWithdrawalAmount),
                      SendMessages(s.config.protocolFeeContract, c.protocolFee));
      } else {
        NoMessages(ds);
      }
    }
  }

  // ---- Runs ----

  ghost predicate WorldPoolOk(w: World) {
    PoolOk(w.store, w.chain.delegations)
  }

  ghost predicate WorldTracks(w: World) {
    Tracks(w.store, w.chain.delegations)
  }

  lemma TransactKeepsPool(w: World, sender: Addr, funds: seq<Coin>, call: Call)
    requires WorldPoolOk(w) && Transact(w, sender, funds, call).Ok?
    ensures var t := Transact(w, sender, funds, call).value;
      && WorldPoolOk(t)
      && (ChecksSlashing(call) || WorldTracks(w) ==> WorldTracks(t))
  {
    hide PoolOk, Tracks, Dispatch, ExecuteAll, StakingEffects;
    var before := Attach(w.chain, sender, funds, call).value;
    var r := Dispatch(w.store, before, sender, funds, call).value;
    ExecuteAllStakes(before, r.messages);
    if ChecksSlashing(call) {
      CheckingCallsKeepPool(w.store, before, sender, funds, call, ExecuteAll(before, r.messages).value.delegations);
    } else {
      OtherCallsKeepPool(w.store, before, sender, funds, call);
    }
  }

  lemma SlashKeepsPool(s: Store, ds: map<Addr, nat>, v: Addr, left: nat)
    requires PoolOk(s, ds) && v in ds && left <= ds[v]
    ensures PoolOk(s, ds[v := left])
  {
  }

  lemma StepKeepsPool(w: World, e: Event)
    requires WorldPoolOk(w)
    ensures WorldPoolOk(Step(w, e))
    ensures Accepted(w, e) && ChecksSlashing(e.call) ==> WorldTracks(Step(w, e))
    ensures WorldTracks(w) && !e.SlashDelegation? ==> WorldTracks(Step(w, e))
  {
    hide PoolOk, Tracks, Transact;
    if Accepted(w, e) {
      TransactKeepsPool(w, e.sender, e.funds, e.call);
    } else if e.SlashDelegation? && e.v in w.chain.delegations && e.left <= w.chain.delegations[e.v] {
      SlashKeepsPool(w.store, w.chain.delegations, e.v, e.left);
    }
  }

  /** In every reachable world the validators are distinct, metadata is kept for exactly the pool, the total staked is
      the sum of the tracked stakes, and nothing is delegated outside the pool. */
  lemma {:induction false} RunKeepsPool(w: World, es: seq<Event>)
    requires WorldPoolOk(w)
    ensures WorldPoolOk(Run(w, es))
    decreases |es|
  {
    hide Step, WorldPoolOk;
    if es != [] {
      StepKeepsPool(w, es[0]);
      RunKeepsPool(Step(w, es[0]), es[1..]);
    }
  }

  lemma ReachablePoolOk(w: World, es: seq<Event>)
    requires Initial(w)
    ensures WorldPoolOk(Run(w, es))
  {
    hide Run;
    RunKeepsPool(w, es);
  }
}
