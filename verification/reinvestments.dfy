/** Reinvesting the rewards: exactly when it commits, and the whole of what it leaves behind. */
module Reinvestments {
  import opened Results
  import opened Decimals
  import opened Sums
  import opened Storage
  import opened Selection
  import opened Handlers
  import opened Messages
  import opened Machine
  import opened Solvency
  import opened RewardContract
  import opened SlashFree
  import opened SlashingCheck
  import opened Deposits

  /** The reward balance splits into fee and reward. */
  function RewardFeeOf(c: Config, balance: nat): nat {
    balance * c.protocolRewardFee / ONE
  }

  function RewardOf(c: Config, balance: nat): nat {
    SaturatingSub(balance, RewardFeeOf(c, balance))
  }

  lemma RewardFeeExactly(c: Config, balance: nat)
    requires ConfigOk(c)
    ensures RewardFee(balance, c.protocolRewardFee)
         == if balance * ONE < U128_LIMIT then Ok(RewardFeeOf(c, balance)) else Err(Panic)
    ensures RewardFeeOf(c, balance) + RewardOf(c, balance) == balance
  {
    hide ValidateUnbondingPeriod, ValidateUndelegationCooldown, ValidateMinDeposit, ValidateMaxDeposit;
    var fee := c.protocolRewardFee;
    MulFloorAtMost(balance, fee);
    QuotientIs(balance * ONE, 1, balance * ONE);
    assert fee * (balance * ONE) == (balance * fee) * ONE;
    QuotientIs((balance * fee) * ONE, ONE, balance * fee);
    MulMonotone(balance, balance, fee, ONE);
  }

  /** The manager may reinvest at any time, everybody else once the cooldown is over. */
  predicate MayReinvest(s: Store, sender: Addr, now: nat) {
    sender == s.config.manager || s.state.lastReinvestTime + s.config.reinvestCooldown * NANOS <= now
  }

  /** The handler can calculate with `balance` on top of the pool's stake. */
  ghost predicate Reinvestable(s: Store, ch: Chain, stake: nat, balance: nat) {
    var reward := RewardOf(s.config, balance);
    && balance * ONE < U128_LIMIT
    && Stakeable(s, ch, stake, reward)
    && RateOf(stake + reward, ch.supply) < U128_LIMIT
  }

  ghost predicate ReinvestResponse(m: map<Addr, VMeta>, s: Store, ch: Chain, r: Response, v: Addr) {
    var balance := Held(ch.luna, s.config.rewardContract); var reward := RewardOf(s.config, balance);
    && r.store == s.(state := s.state.(totalStaked := s.state.totalStaked + reward, lastReinvestTime := ch.now,
                                       exchangeRate := RateOf(s.state.totalStaked + reward, ch.supply)),
                     validatorMeta := r.store.validatorMeta)
    && r.messages == [TransferRewards(s.config.rewardContract, reward, SELF, RewardFeeOf(s.config, balance),
                                      s.config.protocolFeeContract)] + DelegateMessages(v, reward)
    && SyncedTo(m, r.store.validatorMeta, s.state.validators, ch.delegations, Credit(ch.delegations, v, reward))
    && Chosen(s.state.validators, ch.bonded, ch.delegations, v)
  }

  lemma ReinvestSyncedExactly(m: map<Addr, VMeta>, s: Store, ch: Chain, sender: Addr) returns (v: Addr)
    requires SyncedTo(m, s.validatorMeta, s.state.validators, ch.delegations, ch.delegations)
    requires s.state.totalStaked == DelegatedSum(s.state.validators, ch.delegations)
    requires ConfigOk(s.config)
    ensures ReinvestSynced(s, ch, sender).Ok?
      <==> && MayReinvest(s, sender, ch.now)
           && Reinvestable(s, ch, s.state.totalStaked, Held(ch.luna, s.config.rewardContract))
    ensures ReinvestSynced(s, ch, sender).Ok? ==> ReinvestResponse(m, s, ch, ReinvestSynced(s, ch, sender).value, v)
  {
    hide ValidatorForDeposit, IncreaseTrackedStake, RewardFee, SyncedTo, MetaOf, RewardOf, RewardFeeOf, DelegatedSum,
      Chosen, DelegateMessages, Credit, Held, RateOf, CalculateExchangeRate, ConfigOk;
    var balance := Held(ch.luna, s.config.rewardContract);
    var reward := RewardOf(s.config, balance);
    v := ValidatorForDeposit(s.state.validators, ch.bonded, ch.delegations).GetOr(0);
    RewardFeeExactly(s.config, balance);
    DepositChoice(s.state.validators, ch.bonded, ch.delegations);
    RateOfIs(s.state.totalStaked + reward, ch.supply);
    assert reward == SaturatingSub(balance, RewardFeeOf(s.config, balance));
    if ValidatorForDeposit(s.state.validators, ch.bonded, ch.delegations).Ok? {
      ChosenIsMember(s.state.validators, ch.bonded, ch.delegations, v);
      IncreasesMeta(s.validatorMeta, v, reward);
      StakeOf(m, s.validatorMeta, s.state.validators, ch.delegations, v);
      HeldAtMostSum(s.state.validators, ch.delegations, v);
      SyncedIncreases(m, s.validatorMeta, s.state.validators, ch.delegations, v, reward);
    }
  }

  // ---- Handing the rewards over ----

  /** `first` and `second` went out of `from`, and nothing else moved. */
  ghost predicate MovedTwice(m: map<Addr, nat>, n: map<Addr, nat>, from: Addr, first: (Addr, nat), second: (Addr, nat)) {
    forall a :: Held(n, a) + (if a == from then first.1 + second.1 else 0)
                == Held(m, a) + (if a == first.0 then first.1 else 0) + if a == second.0 then second.1 else 0
  }

  function Nonempty(send: (Addr, nat)): seq<(Addr, nat)> {
    if send.1 == 0 then [] else [send]
  }

  lemma SendNonempty(luna: map<Addr, nat>, from: Addr, send: (Addr, nat))
    requires send.1 <= Held(luna, from)
    ensures var r := SendAll(luna, from, Nonempty(send));
      r.Ok? && Moved(luna, r.value, from, send.0, send.1)
  {
    hide Move;
    MoveMoves(luna, from, send.0, send.1);
    assert [send][1..] == [];
  }

  lemma {:induction false} SendAppend(luna: map<Addr, nat>, from: Addr, a: seq<(Addr, nat)>, b: seq<(Addr, nat)>)
    requires SendAll(luna, from, a).Ok?
    ensures SendAll(luna, from, a + b) == SendAll(SendAll(luna, from, a).value, from, b)
    decreases |a|
  {
    hide Move;
    if a == [] {
      assert a + b == b;
    } else {
      assert (a + b)[1..] == a[1..] + b;
      SendAppend(Move(luna, from, a[0].0, a[0].1).value, from, a[1..], b);
    }
  }

  lemma SendBoth(luna: map<Addr, nat>, from: Addr, first: (Addr, nat), second: (Addr, nat))
    requires first.1 + second.1 <= Held(luna, from)
    ensures var r := SendAll(luna, from, Nonempty(first) + Nonempty(second));
      r.Ok? && MovedTwice(luna, r.value, from, first, second)
  {
    hide SendAll, Nonempty;
    SendNonempty(luna, from, first);
    var mid := SendAll(luna, from, Nonempty(first)).value;
    assert Held(mid, from) >= Held(luna, from) - first.1;
    SendNonempty(mid, from, second);
    SendAppend(luna, from, Nonempty(first), Nonempty(second));
  }

  /** The reward contract's `transfer` hands a split of its balance over to the two receivers, if it is configured for
      the staking contract, and otherwise refuses. */
  lemma TransferHandsOver(ch: Chain, contract: Addr, reward: nat, fee: nat, feeTo: Addr)
    requires contract == REWARD ==> reward + fee == Held(ch.luna, REWARD) < U128_LIMIT
    ensures var r := Execute(ch, TransferRewards(contract, reward, SELF, fee, feeTo));
      && (r.Ok? <==> contract == REWARD && ch.rewardStakingContract == SELF)
      && (r.Ok? ==> r.value == ch.(luna := r.value.luna)
                    && MovedTwice(ch.luna, r.value.luna, REWARD, (SELF, reward), (feeTo, fee)))
  {
    hide SendAll, MovedTwice;
    if contract == REWARD && ch.rewardStakingContract == SELF {
      SendBoth(ch.luna, REWARD, (SELF, reward), (feeTo, fee));
      assert Transfer(SELF, SELF, Held(ch.luna, REWARD), reward, SELF, fee, feeTo)
          == Ok(Nonempty((SELF, reward)) + Nonempty((feeTo, fee)));
    }
  }

  lemma DelegateExecutes(ch: Chain, v: Addr, amount: nat)
    requires amount <= Held(ch.luna, SELF)
    ensures var r := ExecuteAll(ch, DelegateMessages(v, amount));
      && r.Ok? && r.value == ch.(luna := r.value.luna, delegations := r.value.delegations)
      && (forall u :: Held(r.value.delegations, u) == Held(ch.delegations, u) + if u == v then amount else 0)
      && (forall a :: Held(r.value.luna, a) + (if a == SELF then amount else 0) == Held(ch.luna, a))
  {
    ExecuteOne(ch, Delegate(v, amount));
  }

  lemma ReinvestMessagesExecute(ch: Chain, contract: Addr, v: Addr, reward: nat, fee: nat, feeTo: Addr)
    requires contract == REWARD ==> reward + fee == Held(ch.luna, REWARD) < U128_LIMIT
    ensures var r := ExecuteAll(ch, [TransferRewards(contract, reward, SELF, fee, feeTo)] + DelegateMessages(v, reward));
      && (r.Ok? <==> contract == REWARD && ch.rewardStakingContract == SELF)
      && (r.Ok? ==> forall a :: Held(r.value.luna, a) + (if a == REWARD then reward + fee else 0)
                                == Held(ch.luna, a) + if a == feeTo then fee else 0)
      && (r.Ok? ==> && r.value == ch.(luna := r.value.luna, delegations := r.value.delegations)
                    && forall u :: Held(r.value.delegations, u) == Held(ch.delegations, u) + if u == v then reward else 0)
  {
    hide ExecuteAll, Execute, DelegateMessages;
    var transfer := TransferRewards(contract, reward, SELF, fee, feeTo);
    TransferHandsOver(ch, contract, reward, fee, feeTo);
    ExecuteAppend(ch, [transfer], DelegateMessages(v, reward));
    ExecuteOne(ch, transfer);
    if Execute(ch, transfer).Ok? {
      var mid := Execute(ch, transfer).value;
      assert Held(mid.luna, SELF) >= reward;
      DelegateExecutes(mid, v, reward);
    }
  }

  // ---- The transaction ----

  /** When a reinvestment commits: reinvesting is not paused, the cooldown is over or the manager calls, the two
      contracts are configured for each other, some pool member is active, and nothing overflows. */
  ghost predicate ReinvestAccepted(w: World, sender: Addr, funds: seq<Coin>) {
    var s := w.store;
    && !s.controls.reinvestPaused
    && VaultAmount(funds) <= Held(w.chain.luna, sender)
    && WorldCheckFits(w)
    && MayReinvest(s, sender, w.chain.now)
    && s.config.rewardContract == REWARD && w.chain.rewardStakingContract == SELF
    && Reinvestable(s, w.chain, PoolStake(w), Held(w.chain.luna, REWARD))
  }

  /** All rewards have left the reward contract, the fee for the fee contract and the rest for the delegation of `v`. The
      rate is the new stake per token, and the cooldown starts again. */
  ghost predicate ReinvestedBy(w: World, t: World, sender: Addr, funds: seq<Coin>, v: Addr) {
    var s := w.store; var balance := Held(w.chain.luna, REWARD); var reward := RewardOf(s.config, balance);
    && Chosen(s.state.validators, w.chain.bonded, w.chain.delegations, v)
    && t.store == s.(
         state := s.state.(totalStaked := PoolStake(w) + reward, lastReinvestTime := w.chain.now,
                           exchangeRate := RateOf(PoolStake(w) + reward, w.chain.supply)),
         validatorMeta := t.store.validatorMeta)
    && SyncedTo(s.validatorMeta, t.store.validatorMeta, s.state.validators, w.chain.delegations, t.chain.delegations)
    && t.chain == w.chain.(luna := t.chain.luna, delegations := t.chain.delegations)
    && (forall u :: Held(t.chain.delegations, u) == Held(w.chain.delegations, u) + if u == v then reward else 0)
    && (forall a :: Held(t.chain.luna, a) + (if a == sender then VaultAmount(funds) else 0)
                    + (if a == REWARD then balance else 0)
                    == Held(w.chain.luna, a) + (if a == SELF then VaultAmount(funds) else 0)
                       + if a == s.config.protocolFeeContract then RewardFeeOf(s.config, balance) else 0)
    && t.withdrawn == w.withdrawn
  }

  lemma SyncedSameHeld(m: map<Addr, VMeta>, n: map<Addr, VMeta>, pool: seq<Addr>, ds: map<Addr, nat>,
                       a: map<Addr, nat>, b: map<Addr, nat>)
    requires SyncedTo(m, n, pool, ds, a) && forall u :: Held(b, u) == Held(a, u)
    ensures SyncedTo(m, n, pool, ds, b)
  {
    hide SlashedBy, Held;
  }

  /** The same as `ReinvestedBy`, as seen from the chain on which the attached funds have arrived. */
  ghost predicate ReinvestedFrom(w: World, before: Chain, t: World, v: Addr) {
    var s := w.store; var balance := Held(before.luna, REWARD); var reward := RewardOf(s.config, balance);
    && Chosen(s.state.validators, w.chain.bonded, w.chain.delegations, v)
    && t.store == s.(
         state := s.state.(totalStaked := PoolStake(w) + reward, lastReinvestTime := w.chain.now,
                           exchangeRate := RateOf(PoolStake(w) + reward, w.chain.supply)),
         validatorMeta := t.store.validatorMeta)
    && SyncedTo(s.validatorMeta, t.store.validatorMeta, s.state.validators, w.chain.delegations, t.chain.delegations)
    && t.chain == before.(luna := t.chain.luna, delegations := t.chain.delegations)
    && (forall u :: Held(t.chain.delegations, u) == Held(w.chain.delegations, u) + if u == v then reward else 0)
    && (forall a :: Held(t.chain.luna, a) + (if a == REWARD then balance else 0)
                    == Held(before.luna, a) + if a == s.config.protocolFeeContract then RewardFeeOf(s.config, balance)
                                              else 0)
    && t.withdrawn == w.withdrawn
  }

  lemma CreditIs(ds: map<Addr, nat>, v: Addr, n: nat)
    ensures forall u :: Held(Credit(ds, v, n), u) == Held(ds, u) + if u == v then n else 0
  {
  }

  lemma ReinvestResponseExecutes(m: map<Addr, VMeta>, s: Store, ch: Chain, r: Response, v: Addr)
    requires ReinvestResponse(m, s, ch, r, v) && ConfigOk(s.config)
    requires Held(ch.luna, s.config.rewardContract) < U128_LIMIT
    ensures var balance := Held(ch.luna, s.config.rewardContract); var x := ExecuteAll(ch, r.messages);
      && (x.Ok? <==> s.config.rewardContract == REWARD && ch.rewardStakingContract == SELF)
      && (x.Ok? ==>
            && x.value == ch.(luna := x.value.luna, delegations := x.value.delegations)
            && SyncedTo(m, r.store.validatorMeta, s.state.validators, ch.delegations, x.value.delegations)
            && (forall u :: Held(x.value.delegations, u)
                            == Held(ch.delegations, u) + if u == v then RewardOf(s.config, balance) else 0)
            && (forall a :: Held(x.value.luna, a) + (if a == REWARD then balance else 0)
                            == Held(ch.luna, a) + if a == s.config.protocolFeeContract
                                                  then RewardFeeOf(s.config, balance) else 0))
  {
    hide ExecuteAll, SyncedTo, RateOf, RewardOf, RewardFeeOf, Chosen, DelegateMessages, ConfigOk, Credit, Held;
    var balance := Held(ch.luna, s.config.rewardContract);
    var reward := RewardOf(s.config, balance);
    RewardFeeExactly(s.config, balance);
    ReinvestMessagesExecute(ch, s.config.rewardContract, v, reward, RewardFeeOf(s.config, balance),
                            s.config.protocolFeeContract);
    CreditIs(ch.delegations, v, reward);
    if ExecuteAll(ch, r.messages).Ok? {
      SyncedSameHeld(m, r.store.validatorMeta, s.state.validators, ch.delegations, Credit(ch.delegations, v, reward),
                     ExecuteAll(ch, r.messages).value.delegations);
    }
  }

  lemma ReinvestHandled(w: World, before: Chain, sender: Addr, funds: seq<Coin>) returns (v: Addr)
    requires ConfigOk(w.store.config)
    requires Attach(w.chain, sender, funds, CallReinvest) == Ok(before) && before == w.chain.(luna := before.luna)
    ensures Transact(w, sender, funds, CallReinvest).Ok?
      <==> && !w.store.controls.reinvestPaused && WorldCheckFits(w) && MayReinvest(w.store, sender, w.chain.now)
           && w.store.config.rewardContract == REWARD && w.chain.rewardStakingContract == SELF
           && Reinvestable(w.store, w.chain, PoolStake(w), Held(before.luna, REWARD))
    ensures Transact(w, sender, funds, CallReinvest).Ok?
      ==> ReinvestedFrom(w, before, Transact(w, sender, funds, CallReinvest).value, v)
  {
    hide Attach, CheckSlashing, ReinvestSynced, ExecuteAll, SyncedTo, CheckFits, RateOf, RewardOf, RewardFeeOf, Chosen,
      DelegatedSum, DelegateMessages, ConfigOk, ActiveMember, Credit, Held;
    v := 0;
    CheckSlashingExactly(w.store, before);
    if CheckSlashing(w.store, before).Ok? {
      var s1 := CheckSlashing(w.store, before).value;
      v := ReinvestSyncedExactly(w.store.validatorMeta, s1, before, sender);
      if ReinvestSynced(s1, before, sender).Ok? {
        ReinvestResponseExecutes(w.store.validatorMeta, s1, before, ReinvestSynced(s1, before, sender).value, v);
      }
    }
  }

  lemma RewardsFromAttached(w: World, before: Chain, t: World, sender: Addr, funds: seq<Coin>, v: Addr)
    requires ReinvestedFrom(w, before, t, v) && External(sender)
    requires before == w.chain.(luna := before.luna)
    requires Moved(w.chain.luna, before.luna, sender, SELF, VaultAmount(funds))
    ensures ReinvestedBy(w, t, sender, funds, v)
  {
    hide SyncedTo, RewardOf, RewardFeeOf, Chosen, RateOf, DelegatedSum, Held, VaultAmount;
    assert Held(before.luna, REWARD) == Held(w.chain.luna, REWARD);
  }

  /** A reinvestment commits exactly when it should, and then it has exactly the effect of `ReinvestedBy`. */
  lemma ReinvestingExactly(w: World, sender: Addr, funds: seq<Coin>)
    requires ConfigOk(w.store.config) && External(sender)
    ensures var r := Transact(w, sender, funds, CallReinvest);
      && (r.Ok? <==> ReinvestAccepted(w, sender, funds))
      && (r.Ok? ==> exists v :: ReinvestedBy(w, r.value, sender, funds, v))
  {
    hide Attach, Dispatch, ExecuteAll, VaultAmount, ReinvestedFrom, ReinvestedBy, ConfigOk, CheckFits, Reinvestable,
      MayReinvest, Held;
    AttachExactly(w.chain, sender, funds, CallReinvest);
    if Attach(w.chain, sender, funds, CallReinvest).Ok? {
      var before := Attach(w.chain, sender, funds, CallReinvest).value;
      assert Held(before.luna, REWARD) == Held(w.chain.luna, REWARD);
      var v := ReinvestHandled(w, before, sender, funds);
      if Transact(w, sender, funds, CallReinvest).Ok? {
        RewardsFromAttached(w, before, Transact(w, sender, funds, CallReinvest).value, sender, funds, v);
      }
    }
  }
}
