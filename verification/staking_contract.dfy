/** The staking contract as it runs: storage items that the handlers load, change and save. Each handler is proved
    against its specification in `Handlers`. What an aborted call leaves in storage does not matter: the transaction
    it belongs to is undone. */
module StakingContract {
  import opened Results
  import opened Decimals
  import opened Sums
  import opened Storage
  import opened Selection
  import opened Selector
  import opened Handlers
  import opened Machine

  /** A handler did what its specification says: the same messages and storage, or the same error. */
  ghost predicate Agrees(spec: Result<Response>, r: Result<seq<Message>>, after: Store) {
    match spec
    case Ok(response) => r == Ok(response.messages) && after == response.store
    case Err(e) => r == Err(e)
  }

  // ---- Facts the loops need ----

  lemma {:induction false} DelegatedSumPrefix(pool: seq<Addr>, i: nat, ds: map<Addr, nat>)
    requires i <= |pool|
    ensures DelegatedSum(pool[..i], ds) <= DelegatedSum(pool, ds)
    decreases |pool|
  {
    if i < |pool| {
      var front := pool[..|pool| - 1];
      DelegatedSumPrefix(front, i, ds);
      assert front[..i] == pool[..i];
    } else {
      assert pool[..i] == pool;
    }
  }

  lemma {:induction false} SyncPoolPrefix(meta: map<Addr, VMeta>, pool: seq<Addr>, i: nat, ds: map<Addr, nat>)
    requires i <= |pool| && SyncPool(meta, pool[..i], ds).Err?
    ensures SyncPool(meta, pool, ds) == Err(Panic)
    decreases |pool|
  {
    hide SyncPool;
    SyncPoolPanics(meta, pool, ds);
    if i < |pool| {
      var front := pool[..|pool| - 1];
      assert front[..i] == pool[..i];
      SyncPoolPrefix(meta, front, i, ds);
      SyncPoolFront(meta, pool, ds);
    } else {
      assert pool[..i] == pool;
    }
  }

  lemma SyncPoolFront(meta: map<Addr, VMeta>, pool: seq<Addr>, ds: map<Addr, nat>)
    requires pool != [] && SyncPool(meta, pool[..|pool| - 1], ds).Err?
    ensures SyncPool(meta, pool, ds).Err?
  {
    hide SyncMeta, MetaOf;
  }

  lemma {:induction false} SyncPoolPanics(meta: map<Addr, VMeta>, pool: seq<Addr>, ds: map<Addr, nat>)
    ensures SyncPool(meta, pool, ds).Ok? || SyncPool(meta, pool, ds) == Err(Panic)
  {
    hide SyncMeta, MetaOf;
    if pool != [] {
      SyncPoolPanics(meta, pool[..|pool| - 1], ds);
    }
  }

  /** One turn of the loop in `check_slashing`. */
  lemma SyncStep(meta: map<Addr, VMeta>, pool: seq<Addr>, i: nat, ds: map<Addr, nat>, now: map<Addr, VMeta>)
    requires i < |pool| && SyncPool(meta, pool[..i], ds) == Ok(now)
    ensures DelegatedSum(pool[..i + 1], ds) == DelegatedSum(pool[..i], ds) + Held(ds, pool[i])
    ensures DelegatedSum(pool[..i + 1], ds) <= DelegatedSum(pool, ds)
    ensures var m := SyncMeta(MetaOf(now, pool[i]), Held(ds, pool[i]));
      if m.slashed < U128_LIMIT then SyncPool(meta, pool[..i + 1], ds) == Ok(now[pool[i] := m])
      else SyncPool(meta, pool, ds) == Err(Panic)
  {
    hide SyncPool, SyncMeta, MetaOf, Held, DelegatedSum;
    assert pool[..i + 1] == pool[..i] + [pool[i]];
    SyncSnoc(meta, pool[..i], pool[i], ds);
    DelegatedSumPrefix(pool, i + 1, ds);
    if SyncMeta(MetaOf(now, pool[i]), Held(ds, pool[i])).slashed >= U128_LIMIT {
      SyncPoolPrefix(meta, pool, i + 1, ds);
    }
  }

  lemma SyncSnoc(meta: map<Addr, VMeta>, front: seq<Addr>, v: Addr, ds: map<Addr, nat>)
    ensures DelegatedSum(front + [v], ds) == DelegatedSum(front, ds) + Held(ds, v)
    ensures SyncPool(meta, front, ds).Ok? ==>
              var now := SyncPool(meta, front, ds).value; var m := SyncMeta(MetaOf(now, v), Held(ds, v));
              SyncPool(meta, front + [v], ds) == if m.slashed < U128_LIMIT then Ok(now[v := m]) else Err(Panic)
  {
    hide SyncMeta, MetaOf, Held;
    assert (front + [v])[..|front|] == front;
  }

  /** One turn of the undelegation loop. */
  lemma UndelegateMessagesSnoc(taken: seq<(Addr, nat)>, v: Addr, amount: nat, rest: seq<(Addr, nat)>, id: BatchId,
                               messages: seq<Message>)
    requires taken == [(v, amount)] + rest
    ensures messages + UndelegateMessages(taken, id)
         == messages + [UndelegateStake(v, amount, id)] + UndelegateMessages(rest, id)
  {
    assert taken[1..] == rest;
  }

  lemma DecreaseTrackedStakesStep(meta: map<Addr, VMeta>, taken: seq<(Addr, nat)>, v: Addr, amount: nat,
                                  rest: seq<(Addr, nat)>)
    requires taken == [(v, amount)] + rest
    ensures DecreaseTrackedStakes(meta, taken) == DecreaseTrackedStakes(DecreaseTrackedStake(meta, v, amount), rest)
  {
    assert taken[1..] == rest;
  }

  lemma {:induction false} ExpectedStakeMonotone(b: map<BatchId, Batch>, lo: BatchId, mid: BatchId, hi: BatchId)
    requires mid <= hi
    ensures ExpectedStake(b, lo, mid) <= ExpectedStake(b, lo, hi)
  {
    if mid < hi {
      ExpectedStakeMonotone(b, lo, mid, hi - 1);
    }
  }

  lemma {:induction false} ReadUpToGrows(b: map<BatchId, Batch>, last: BatchId, bound: BatchId, now: nat)
    ensures last <= ReadUpTo(b, last, bound, now)
    decreases bound - last
  {
    if last + 1 < bound && last + 1 in b && Released(b[last + 1], now) {
      ReadUpToGrows(b, last + 1, bound, now);
    }
  }

  lemma ExpectedStakeStep(b: map<BatchId, Batch>, lo: BatchId, id: BatchId)
    ensures id <= lo ==> ExpectedStake(b, lo, id) == 0
    ensures lo < id && id in b ==> ExpectedStake(b, lo, id) == ExpectedStake(b, lo, id - 1) + b[id].undelegatedStake
  {
  }

  class Contract {
    var config: Config
    var controls: OperationControls
    var state: State
    var validatorMeta: map<Addr, VMeta>
    var batches: map<BatchId, Batch>
    var users: map<(Addr, BatchId), UndelegationInfo>

    function Stored(): Store
      reads this
    {
      Store(config, controls, state, validatorMeta, batches, users)
    }

    constructor FromStore(st: Store)
      ensures Stored() == st
    {
      config := st.config;
      controls := st.controls;
      state := st.state;
      validatorMeta := st.validatorMeta;
      batches := st.batches;
      users := st.users;
    }

    // ---- Tracked stake ----

    method IncreaseTrackedStake(v: Addr, amount: nat) returns (r: Result<()>)
      modifies this`validatorMeta
      ensures match Handlers.IncreaseTrackedStake(old(validatorMeta), v, amount)
              case Ok(meta) => r == Ok(()) && validatorMeta == meta
              case Err(e) => r == Err(e)
    {
      var m := MetaOf(validatorMeta, v);
      var staked :- AddU128(m.staked, amount);
      validatorMeta := validatorMeta[v := m.(staked := staked)];
      return Ok(());
    }

    method DecreaseTrackedStake(v: Addr, amount: nat)
      modifies this`validatorMeta
      ensures validatorMeta == Handlers.DecreaseTrackedStake(old(validatorMeta), v, amount)
    {
      var m := MetaOf(validatorMeta, v);
      validatorMeta := validatorMeta[v := m.(staked := SaturatingSub(m.staked, amount))];
    }

    /** Brings the tracked stakes, the total and the rate up to date with the delegations on the chain. */
    method CheckSlashing(ch: Chain) returns (r: Result<()>)
      modifies this`validatorMeta, this`state
      ensures match Handlers.CheckSlashing(old(Stored()), ch)
              case Ok(st) => r == Ok(()) && Stored() == st
              case Err(e) => r == Err(e)
    {
      hide SyncPool, DelegatedSum, SyncMeta, CalculateExchangeRate;
      var pool := state.validators;
      var totalStakedOnChain := 0;
      var i := 0;
      assert SyncPool(validatorMeta, pool[..0], ch.delegations) == Ok(validatorMeta)
          && DelegatedSum(pool[..0], ch.delegations) == 0 by { SyncNothing(validatorMeta, ch.delegations); }
      SyncPoolPanics(validatorMeta, pool, ch.delegations);
      while i < |pool|
        modifies this`validatorMeta
        invariant i <= |pool|
        invariant SyncPool(old(validatorMeta), pool[..i], ch.delegations) == Ok(validatorMeta)
        invariant totalStakedOnChain == DelegatedSum(pool[..i], ch.delegations) < U128_LIMIT
      {
        var v := pool[i];
        var delegation := Held(ch.delegations, v);
        SyncStep(old(validatorMeta), pool, i, ch.delegations, validatorMeta);
        totalStakedOnChain :- AddU128(totalStakedOnChain, delegation);
        var meta := SyncMeta(MetaOf(validatorMeta, v), delegation);
        if meta.slashed >= U128_LIMIT {
          return Err(Panic);
        }
        validatorMeta := validatorMeta[v := meta];
        i := i + 1;
      }
      assert pool[..i] == pool;
      var rate :- CalculateExchangeRate(totalStakedOnChain, ch.supply);
      state := state.(totalStaked := totalStakedOnChain, exchangeRate := rate);
      return Ok(());
    }

    static lemma SyncNothing(meta: map<Addr, VMeta>, ds: map<Addr, nat>)
      ensures SyncPool(meta, [], ds) == Ok(meta) && DelegatedSum([], ds) == 0
    {
    }

    method CreateNewUndelegationBatch(now: nat)
      modifies this`batches, this`state
      ensures Stored() == Handlers.CreateNewUndelegationBatch(old(Stored()), now)
    {
      var next := state.currentUndelegationBatchId + 1;
      batches := batches[next := NewBatch(now, state.exchangeRate)];
      state := state.(currentUndelegationBatchId := next);
    }

    // ---- Configuration ----

    static method Instantiate(now: nat, sender: Addr, msg: InstantiateMsg) returns (r: Result<Contract>)
      ensures match Handlers.Instantiate(now, sender, msg)
              case Ok(st) => r.Ok? && fresh(r.value) && r.value.Stored() == st
              case Err(e) => r == Err(e)
    {
      if msg.protocolRewardFee > REWARD_FEE_CAP || msg.protocolDepositFee > DEPOSIT_FEE_CAP
         || msg.protocolWithdrawFee > WITHDRAW_FEE_CAP {
        return Err(ProtocolFeeAboveLimit);
      }
      :- Need(ValidateUnbondingPeriod(msg.unbondingPeriod), InvalidUnbondingPeriod);
      :- Need(ValidateUndelegationCooldown(msg.undelegationCooldown), InvalidUndelegationCooldown);
      :- Need(ValidateMinDeposit(msg.minDeposit), InvalidMinDeposit);
      :- Need(ValidateMaxDeposit(msg.maxDeposit), InvalidMaxDeposit);
      :- Need(msg.undelegationCooldown * NANOS <= now && msg.reinvestCooldown * NANOS <= now, Panic);
      var config := Config(
        sender, msg.minDeposit, msg.maxDeposit, msg.rewardContract, msg.protocolFeeContract, msg.protocolRewardFee,
        msg.protocolDepositFee, msg.protocolWithdrawFee, msg.unbondingPeriod, msg.undelegationCooldown,
        msg.reinvestCooldown);
      var state := State(
        0, ONE, 0, 0, now - msg.undelegationCooldown * NANOS, now - msg.reinvestCooldown * NANOS, [], 0);
      var contract := new Contract.FromStore(Store(config, NOTHING_PAUSED, state, map[], map[], map[]));
      contract.CreateNewUndelegationBatch(now);
      return Ok(contract);
    }

    method UpdateConfig(sender: Addr, update: ConfigUpdate) returns (r: Result<seq<Message>>)
      modifies this`config
      ensures Agrees(Handlers.UpdateConfig(old(Stored()), sender, update), r, Stored())
    {
      if sender != config.manager {
        return Err(Unauthorized);
      }
      var withFees :- UpdateFees(config, update);
      var withPeriods :- UpdatePeriods(withFees, update);
      var c :- UpdateDepositBounds(withPeriods, update);
      config := c.(reinvestCooldown := UnwrapOr(update.reinvestCooldown, c.reinvestCooldown));
      return Ok([]);
    }

    static method UpdateFees(c0: Config, update: ConfigUpdate) returns (r: Result<Config>)
      ensures r ==
        if UnwrapOr(update.protocolDepositFee, 0) > DEPOSIT_FEE_CAP
           || UnwrapOr(update.protocolWithdrawFee, 0) > WITHDRAW_FEE_CAP
           || UnwrapOr(update.protocolRewardFee, 0) > REWARD_FEE_CAP
        then Err(ProtocolFeeAboveLimit)
        else Ok(c0.(protocolDepositFee := UnwrapOr(update.protocolDepositFee, c0.protocolDepositFee),
                    protocolWithdrawFee := UnwrapOr(update.protocolWithdrawFee, c0.protocolWithdrawFee),
                    protocolRewardFee := UnwrapOr(update.protocolRewardFee, c0.protocolRewardFee)))
    {
      var c := c0;
      if update.protocolDepositFee.Some? {
        :- Need(update.protocolDepositFee.value <= DEPOSIT_FEE_CAP, ProtocolFeeAboveLimit);
        c := c.(protocolDepositFee := update.protocolDepositFee.value);
      }
      if update.protocolWithdrawFee.Some? {
        :- Need(update.protocolWithdrawFee.value <= WITHDRAW_FEE_CAP, ProtocolFeeAboveLimit);
        c := c.(protocolWithdrawFee := update.protocolWithdrawFee.value);
      }
      if update.protocolRewardFee.Some? {
        :- Need(update.protocolRewardFee.value <= REWARD_FEE_CAP, ProtocolFeeAboveLimit);
        c := c.(protocolRewardFee := update.protocolRewardFee.value);
      }
      return Ok(c);
    }

    static method UpdatePeriods(c0: Config, update: ConfigUpdate) returns (r: Result<Config>)
      ensures r ==
        if update.undelegationCooldown.Some? && !ValidateUndelegationCooldown(update.undelegationCooldown.value)
        then Err(InvalidUndelegationCooldown)
        else if update.unbondingPeriod.Some? && !ValidateUnbondingPeriod(update.unbondingPeriod.value)
        then Err(InvalidUnbondingPeriod)
        else Ok(c0.(undelegationCooldown := UnwrapOr(update.undelegationCooldown, c0.undelegationCooldown),
                    unbondingPeriod := UnwrapOr(update.unbondingPeriod, c0.unbondingPeriod)))
    {
      var c := c0;
      if update.undelegationCooldown.Some? {
        :- Need(ValidateUndelegationCooldown(update.undelegationCooldown.value), InvalidUndelegationCooldown);
        c := c.(undelegationCooldown := update.undelegationCooldown.value);
      }
      if update.unbondingPeriod.Some? {
        :- Need(ValidateUnbondingPeriod(update.unbondingPeriod.value), InvalidUnbondingPeriod);
        c := c.(unbondingPeriod := update.unbondingPeriod.value);
      }
      return Ok(c);
    }

    static method UpdateDepositBounds(c0: Config, update: ConfigUpdate) returns (r: Result<Config>)
      ensures r ==
        if update.minDeposit.Some? && !ValidateMinDeposit(update.minDeposit.value) then Err(InvalidMinDeposit)
        else if update.maxDeposit.Some? && !ValidateMaxDeposit(update.maxDeposit.value) then Err(InvalidMaxDeposit)
        else Ok(c0.(minDeposit := UnwrapOr(update.minDeposit, c0.minDeposit),
                    maxDeposit := UnwrapOr(update.maxDeposit, c0.maxDeposit)))
    {
      var c := c0;
      if update.minDeposit.Some? {
        :- Need(ValidateMinDeposit(update.minDeposit.value), InvalidMinDeposit);
        c := c.(minDeposit := update.minDeposit.value);
      }
      if update.maxDeposit.Some? {
        :- Need(ValidateMaxDeposit(update.maxDeposit.value), InvalidMaxDeposit);
        c := c.(maxDeposit := update.maxDeposit.value);
      }
      return Ok(c);
    }

    method UpdateOperationFlags(sender: Addr, update: FlagsUpdate) returns (r: Result<seq<Message>>)
      modifies this`controls
      ensures Agrees(Handlers.UpdateOperationFlags(old(Stored()), sender, update), r, Stored())
    {
      if sender != config.manager {
        return Err(Unauthorized);
      }
      controls := controls.(
        depositPaused := UnwrapOr(update.depositPaused, controls.depositPaused),
        queueUndelegatePaused := UnwrapOr(update.queueUndelegatePaused, controls.queueUndelegatePaused),
        undelegatePaused := UnwrapOr(update.undelegatePaused, controls.undelegatePaused),
        withdrawPaused := UnwrapOr(update.withdrawPaused, controls.withdrawPaused),
        reinvestPaused := UnwrapOr(update.reinvestPaused, controls.reinvestPaused),
        reconcilePaused := UnwrapOr(update.reconcilePaused, controls.reconcilePaused),
        claimAirdropsPaused := UnwrapOr(update.claimAirdropsPaused, controls.claimAirdropsPaused),
        redeemRewardsPaused := UnwrapOr(update.redeemRewardsPaused, controls.redeemRewardsPaused));
      return Ok([]);
    }

    // ---- The validator pool ----

    method AddValidator(ch: Chain, sender: Addr, v: Addr) returns (r: Result<seq<Message>>)
      modifies this`state, this`validatorMeta
      ensures Agrees(Handlers.AddValidator(old(Stored()), ch, sender, v), r, Stored())
    {
      if sender != config.manager {
        return Err(Unauthorized);
      }
      if v in state.validators {
        return Err(ValidatorAlreadyAdded);
      }
      if v !in ch.known {
        return Err(ValidatorNotDiscoverable);
      }
      state := state.(validators := state.validators + [v]);
      validatorMeta := validatorMeta[v := NEW_VMETA];
      return Ok([]);
    }

    method RemoveValidatorFromPool(ch: Chain, sender: Addr, v: Addr, redel: Addr) returns (r: Result<seq<Message>>)
      modifies this`state, this`validatorMeta
      ensures Agrees(Handlers.RemoveValidatorFromPool(old(Stored()), ch, sender, v, redel), r, Stored())
    {
      hide Handlers.CheckSlashing, Without;
      :- Need(sender == config.manager, Unauthorized);
      var _ :- CheckSlashing(ch);
      :- Need(v != redel, ValidatorsCannotBeSame);
      :- Need(v in state.validators && redel in state.validators, ValidatorNotAdded);
      var messages := [];
      var pool := Without(state.validators, v);
      if v in ch.delegations {
        :- Need(v !in ch.redelegating, RedelegationInProgress);
        var _ :- IncreaseTrackedStake(redel, ch.delegations[v]);
        if ch.delegations[v] != 0 {
          messages := [Redelegate(v, redel, ch.delegations[v])];
        }
      }
      state := state.(validators := pool);
      validatorMeta := validatorMeta - {v};
      return Ok(messages);
    }

    method RebalancePool(ch: Chain, sender: Addr, amount: nat, v: Addr, redel: Addr) returns (r: Result<seq<Message>>)
      modifies this`state, this`validatorMeta
      ensures Agrees(Handlers.RebalancePool(old(Stored()), ch, sender, amount, v, redel), r, Stored())
    {
      hide Handlers.CheckSlashing;
      :- Need(sender == config.manager, Unauthorized);
      :- Need(amount != 0, ZeroAmount);
      var _ :- CheckSlashing(ch);
      :- Need(v != redel, ValidatorsCannotBeSame);
      :- Need(v in state.validators && redel in state.validators, ValidatorNotAdded);
      if v !in ch.delegations || ch.delegations[v] < amount {
        return Err(InSufficientFunds);
      }
      if v in ch.redelegating {
        return Err(RedelegationInProgress);
      }
      DecreaseTrackedStake(v, amount);
      var _ :- IncreaseTrackedStake(redel, amount);
      return Ok([Redelegate(v, redel, amount)]);
    }

    // ---- Deposits and rewards ----

    method Deposit(ch: Chain, sender: Addr, funds: seq<Coin>) returns (r: Result<seq<Message>>)
      modifies this`state, this`validatorMeta
      ensures Agrees(Handlers.Deposit(old(Stored()), ch, sender, funds), r, Stored())
    {
      hide Handlers.CheckSlashing, ComputeDepositBreakdown, ValidatorForDeposit;
      :- Need(!controls.depositPaused, OperationPaused);
      var amount :- SingleVaultFund(funds);
      var _ :- CheckSlashing(ch);
      :- Need(amount <= config.maxDeposit, MaxDeposit);
      :- Need(config.minDeposit <= amount, MinDeposit);
      var breakdown :- ComputeDepositBreakdown(Stored(), amount);
      var messages := SendMessages(config.protocolFeeContract, breakdown.protocolFee);
      if breakdown.stakedAmount != 0 {
        var v :- GetValidatorForDeposit(state.validators, ch);
        var total :- AddU128(state.totalStaked, breakdown.stakedAmount);
        var _ :- IncreaseTrackedStake(v, breakdown.stakedAmount);
        state := state.(totalStaked := total);
        messages := messages + [Delegate(v, breakdown.stakedAmount)];
      }
      return Ok(messages + MintMessages(sender, breakdown.tokensToMint));
    }

    method RedeemRewards(ch: Chain) returns (r: Result<seq<Message>>)
      modifies this`state, this`validatorMeta
      ensures Agrees(Handlers.RedeemRewards(old(Stored()), ch), r, Stored())
    {
      hide Handlers.CheckSlashing;
      var _ :- CheckSlashing(ch);
      :- Need(!controls.redeemRewardsPaused, OperationPaused);
      return Ok([]);
    }

    method Reinvest(ch: Chain, sender: Addr) returns (r: Result<seq<Message>>)
      modifies this`state, this`validatorMeta
      ensures Agrees(Handlers.Reinvest(old(Stored()), ch, sender), r, Stored())
    {
      hide Handlers.CheckSlashing, RewardFee, ValidatorForDeposit, CalculateExchangeRate;
      :- Need(!controls.reinvestPaused, OperationPaused);
      var _ :- CheckSlashing(ch);
      if sender != config.manager && ch.now < PlusSeconds(state.lastReinvestTime, config.reinvestCooldown) {
        return Err(ReinvestInCooldown);
      }
      var balance := Held(ch.luna, config.rewardContract);
      var fee :- RewardFee(balance, config.protocolRewardFee);
      var reward := SaturatingSub(balance, fee);
      var v :- GetValidatorForDeposit(state.validators, ch);
      var total :- AddU128(state.totalStaked, reward);
      var _ :- IncreaseTrackedStake(v, reward);
      var rate :- CalculateExchangeRate(total, ch.supply);
      state := state.(totalStaked := total, exchangeRate := rate, lastReinvestTime := ch.now);
      var messages := [TransferRewards(config.rewardContract, reward, SELF, fee, config.protocolFeeContract)];
      if reward != 0 {
        messages := messages + [Delegate(v, reward)];
      } else {
        assert messages + [] == messages;
      }
      return Ok(messages);
    }

    // ---- Undelegation ----

    method QueueUndelegation(ch: Chain, user: Addr, amount: nat) returns (r: Result<seq<Message>>)
      modifies this`state, this`validatorMeta, this`users, this`batches
      ensures Agrees(Handlers.QueueUndelegation(old(Stored()), ch, user, amount), r, Stored())
    {
      hide Handlers.CheckSlashing;
      :- Need(!controls.queueUndelegatePaused, OperationPaused);
      var _ :- CheckSlashing(ch);
      var id := state.currentUndelegationBatchId;
      var info := if (user, id) in users then users[(user, id)] else UndelegationInfo(id, 0);
      var queued :- AddU128(info.tokenAmount, amount);
      users := users[(user, id) := info.(tokenAmount := queued)];
      if id !in batches {
        return Err(Panic);
      }
      if batches[id].undelegatedTokens + amount >= U128_LIMIT {
        return Err(Std);
      }
      batches := batches[id := batches[id].(
                           undelegatedTokens := batches[id].undelegatedTokens + amount,
                           undelegationEr := state.exchangeRate)];
      return Ok([]);
    }

    /** Closes the current batch at the current rate and spreads its stake over the largest delegations. */
    method UndelegateStake(ch: Chain, sender: Addr) returns (r: Result<seq<Message>>)
      modifies this`state, this`validatorMeta, this`batches
      ensures Agrees(Handlers.UndelegateStakeHandler(old(Stored()), ch, sender), r, Stored())
    {
      hide Handlers.CheckSlashing, MulFloor, ActiveValidatorsSortedByStake, GreedyPlan, Handlers.DecreaseTrackedStake,
        DecreaseTrackedStakes, UndelegateMessages;
      :- Need(!controls.undelegatePaused, OperationPaused);
      var _ :- CheckSlashing(ch);
      if sender != config.manager && ch.now < PlusSeconds(state.lastUndelegationTime, config.undelegationCooldown) {
        return Err(UndelegationInCooldown);
      }
      var id := state.currentUndelegationBatchId;
      if id !in batches {
        return Err(Panic);
      }
      var tokens := batches[id].undelegatedTokens;
      if tokens == 0 {
        return Err(NoOp);
      }
      var stake :- MultiplyU128WithDecimal(tokens, state.exchangeRate);
      batches := batches[id := batches[id].(
                           estReleaseTime := Some(PlusSeconds(ch.now, config.unbondingPeriod)),
                           undelegatedStake := stake, undelegationEr := state.exchangeRate)];
      var tuples :- GetActiveValidatorsSortedByStake(state.validators, ch);
      var messages, left := TakeFromLargest(tuples, stake, id);
      if left != 0 {
        return Err(InSufficientFunds);
      }
      state := state.(lastUndelegationTime := ch.now, totalStaked := SaturatingSub(state.totalStaked, stake));
      CreateNewUndelegationBatch(ch.now);
      return Ok(messages + [BurnTokens(tokens)]);
    }

    /** The undelegation loop: from the last tuple down, take what is still needed or all there is. */
    method TakeFromLargest(tuples: seq<StakeTuple>, amount: nat, id: BatchId)
      returns (messages: seq<Message>, left: nat)
      modifies this`validatorMeta
      ensures var plan := GreedyPlan(tuples, |tuples|, amount);
        && left == plan.left
        && messages == UndelegateMessages(plan.taken, id)
        && validatorMeta == DecreaseTrackedStakes(old(validatorMeta), plan.taken)
    {
      hide Handlers.DecreaseTrackedStake;
      messages, left := [], amount;
      ghost var plan := GreedyPlan(tuples, |tuples|, amount);
      var k := |tuples|;
      while k > 0
        invariant 0 <= k <= |tuples|
        invariant plan.left == GreedyPlan(tuples, k, left).left
        invariant messages + UndelegateMessages(GreedyPlan(tuples, k, left).taken, id)
               == UndelegateMessages(plan.taken, id)
        invariant DecreaseTrackedStakes(validatorMeta, GreedyPlan(tuples, k, left).taken)
               == DecreaseTrackedStakes(old(validatorMeta), plan.taken)
      {
        if left == 0 {
          break;
        }
        var (stake, v) := tuples[k - 1];
        var take := Min(left, stake);
        ghost var rest := GreedyPlan(tuples, k - 1, left - take).taken;
        UndelegateMessagesSnoc([(v, take)] + rest, v, take, rest, id, messages);
        DecreaseTrackedStakesStep(validatorMeta, [(v, take)] + rest, v, take, rest);
        messages := messages + [Storage.UndelegateStake(v, take, id)];
        DecreaseTrackedStake(v, take);
        left := SaturatingSub(left, take);
        k := k - 1;
      }
    }

    // ---- Reconciling and withdrawing ----

    /** Splits what arrived for the next page of released batches among them. */
    method ReconcileFunds(ch: Chain) returns (r: Result<seq<Message>>)
      modifies this`state, this`batches
      ensures Agrees(Handlers.ReconcileFunds(old(Stored()), ch), r, Stored())
    {
      hide ExpectedStake, ReleasedUpTo, MarkReconciled;
      :- Need(!controls.reconcilePaused, OperationPaused);
      var last := state.lastReconciledBatchId;
      var bound := Min(state.currentUndelegationBatchId + 1, last + 1 + PAGE);
      var counted :- CountReleased(bound, ch.now);
      var (totalStakeExpected, lastReconciledId) := counted;
      if totalStakeExpected == 0 {
        return Ok([]);
      }
      var unaccounted := SaturatingSub(Held(ch.luna, SELF), state.reconciledFundsToWithdraw);
      :- Need(unaccounted != 0, ZeroAmount);
      var received :- FromRatio(unaccounted, totalStakeExpected);
      MarkReleased(bound, ch.now, Min(received, ONE));
      var reconciled :- AddU128(state.reconciledFundsToWithdraw, Min(unaccounted, totalStakeExpected));
      state := state.(reconciledFundsToWithdraw := reconciled, lastReconciledBatchId := lastReconciledId);
      return Ok([]);
    }

    /** The first loop: the stake expected for the released batches, and the last of them. */
    method CountReleased(bound: BatchId, now: nat) returns (r: Result<(nat, BatchId)>)
      ensures var last := state.lastReconciledBatchId;
        match ReleasedWindow(batches, last, bound, now)
        case Ok(end) =>
          r == if ExpectedStake(batches, last, end) < U128_LIMIT then Ok((ExpectedStake(batches, last, end), end))
               else Err(Panic)
        case Err(e) => r == Err(e)
    {
      hide ExpectedStake;
      var last := state.lastReconciledBatchId;
      var totalStakeExpected, lastReconciledId := 0, last;
      var id := last + 1;
      assert ExpectedStake(batches, last, last) == 0 by { ExpectedStakeStep(batches, last, last); }
      while id < bound
        invariant last <= lastReconciledId == id - 1
        invariant ReleasedUpTo(batches, last, bound, now) == ReleasedUpTo(batches, lastReconciledId, bound, now)
        invariant ReadUpTo(batches, last, bound, now) == ReadUpTo(batches, lastReconciledId, bound, now)
        invariant totalStakeExpected == ExpectedStake(batches, last, lastReconciledId) < U128_LIMIT
      {
        if id !in batches {
          return Err(Std);
        }
        if !Released(batches[id], now) {
          break;
        }
        ExpectedStakeStep(batches, last, id);
        assert ReleasedUpTo(batches, last, bound, now) == ReleasedUpTo(batches, id, bound, now);
        if ReleasedUpTo(batches, id, bound, now).Ok? {
          ReleasedRun(batches, id, bound, now);
          ExpectedStakeMonotone(batches, last, id, ReleasedUpTo(batches, id, bound, now).value);
        }
        ReadUpToGrows(batches, id, bound, now);
        ExpectedStakeMonotone(batches, last, id, ReadUpTo(batches, id, bound, now));
        totalStakeExpected :- AddU128(totalStakeExpected, batches[id].undelegatedStake);
        lastReconciledId := id;
        id := id + 1;
      }
      return Ok((totalStakeExpected, lastReconciledId));
    }

    /** The second loop: it stops at the same batch as the first. */
    method MarkReleased(bound: BatchId, now: nat, ratio: nat)
      requires ReleasedUpTo(batches, state.lastReconciledBatchId, bound, now).Ok?
      modifies this`batches
      ensures var last := state.lastReconciledBatchId;
        batches == MarkReconciled(
          old(batches), last, ReleasedUpTo(old(batches), last, bound, now).value, ratio)
    {
      hide ReleasedUpTo;
      var last := state.lastReconciledBatchId;
      ghost var end := ReleasedUpTo(batches, last, bound, now).value;
      ReleasedRun(batches, last, bound, now);
      var id := last + 1;
      assert batches == MarkReconciled(batches, last, last, ratio);
      while id < bound
        invariant last < id <= end + 1
        invariant batches == MarkReconciled(old(batches), last, id - 1, ratio)
      {
        var batch := batches[id];
        if !Released(batch, now) {
          assert batch == old(batches)[id];
          break;
        }
        batches := batches[id := batch.(unbondingSlashingRatio := ratio, reconciled := true)];
        id := id + 1;
      }
      assert id == end + 1;
    }

    method ComputeWithdrawableFunds(id: BatchId, user: Addr) returns (r: Result<ClaimRecord>)
      ensures r == Handlers.ComputeWithdrawableFunds(Stored(), id, user)
    {
      hide MulFloor;
      if id !in batches {
        return Err(UndelegationBatchNotFound);
      }
      var batch := batches[id];
      :- Need(batch.reconciled, UndelegationBatchNotReconciled);
      if (user, id) !in users {
        return Err(UndelegationEntryNotFound);
      }
      var tokens := users[(user, id)].tokenAmount;
      var undelegated :- MultiplyU128WithDecimal(tokens, batch.undelegationEr);
      var claimable :- MultiplyU128WithDecimal(undelegated, batch.unbondingSlashingRatio);
      var fee :- MultiplyU128WithDecimal(claimable, config.protocolWithdrawFee);
      return Ok(ClaimRecord(SaturatingSub(claimable, fee), fee, tokens));
    }

    /** Pays a user's claim on a reconciled batch and forgets the record. */
    method WithdrawFundsToWallet(user: Addr, id: BatchId) returns (r: Result<seq<Message>>)
      modifies this`state, this`users
      ensures Agrees(Handlers.WithdrawFundsToWallet(old(Stored()), user, id), r, Stored())
    {
      hide Handlers.ComputeWithdrawableFunds;
      :- Need(!controls.withdrawPaused, OperationPaused);
      var record :- ComputeWithdrawableFunds(id, user);
      var messages := [];
      if record.userWithdrawalAmount != 0 {
        state := state.(reconciledFundsToWithdraw :=
                        SaturatingSub(state.reconciledFundsToWithdraw, record.userWithdrawalAmount));
        messages := messages + [BankSend(user, record.userWithdrawalAmount)];
      }
      if record.protocolFee != 0 {
        state := state.(reconciledFundsToWithdraw :=
                        SaturatingSub(state.reconciledFundsToWithdraw, record.protocolFee));
        messages := messages + [BankSend(config.protocolFeeContract, record.protocolFee)];
      }
      users := users - {(user, id)};
      assert messages == SendMessages(user, record.userWithdrawalAmount)
                         + SendMessages(config.protocolFeeContract, record.protocolFee);
      return Ok(messages);
    }

    // ---- Entry point ----

    method Execute(ch: Chain, sender: Addr, funds: seq<Coin>, call: Call) returns (r: Result<seq<Message>>)
      modifies this
      ensures Agrees(Dispatch(old(Stored()), ch, sender, funds, call), r, Stored())
    {
      hide Handlers.Deposit, Handlers.Reinvest, Handlers.RedeemRewards, Handlers.QueueUndelegation,
        Handlers.UndelegateStakeHandler, Handlers.ReconcileFunds, Handlers.WithdrawFundsToWallet,
        Handlers.AddValidator, Handlers.RemoveValidatorFromPool, Handlers.RebalancePool, Handlers.UpdateConfig,
        Handlers.UpdateOperationFlags;
      match call {
        case CallDeposit => r := Deposit(ch, sender, funds);
        case CallReinvest => r := Reinvest(ch, sender);
        case CallRedeemRewards => r := RedeemRewards(ch);
        case CallQueueUndelegation(amount) => r := QueueUndelegation(ch, sender, amount);
        case CallUndelegate => r := UndelegateStake(ch, sender);
        case CallReconcileFunds => r := ReconcileFunds(ch);
        case CallWithdraw(id) => r := WithdrawFundsToWallet(sender, id);
        case CallAddValidator(v) => r := AddValidator(ch, sender, v);
        case CallRemoveValidator(v, redel) => r := RemoveValidatorFromPool(ch, sender, v, redel);
        case CallRebalancePool(amount, v, redel) => r := RebalancePool(ch, sender, amount, v, redel);
        case CallUpdateConfig(update) => r := UpdateConfig(sender, update);
        case CallUpdateOperationFlags(flags) => r := UpdateOperationFlags(sender, flags);
      }
    }
  }
}
