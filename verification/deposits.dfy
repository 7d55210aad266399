/** Deposits: exactly when they commit, which validator gets the stake, who pays and who receives what. */
module Deposits {
  import opened Results
  import opened Decimals
  import opened Sums
  import opened Storage
  import opened Selection
  import opened SelectionProofs
  import opened Handlers
  import opened Messages
  import opened Machine
  import opened Solvency
  import opened Rates
  import opened Withdrawals
  import opened SlashFree
  import opened SlashingCheck

  // ---- The choice of the validator ----

  predicate ActiveMember(pool: seq<Addr>, bonded: set<Addr>, v: Addr) {
    v in pool && v in bonded
  }

  /** `v` is the first active member without a delegation; if all have one, the one with the least, and of those the one
      with the least address. */
  ghost predicate Chosen(pool: seq<Addr>, bonded: set<Addr>, ds: map<Addr, nat>, v: Addr) {
    && ActiveMember(pool, bonded, v)
    && if exists u :: ActiveMember(pool, bonded, u) && u !in ds
       then FirstUndelegated(pool, bonded, ds, v)
       else forall u | ActiveMember(pool, bonded, u) :: Before((Held(ds, v), v), (Held(ds, u), u))
  }

  ghost predicate FirstUndelegated(pool: seq<Addr>, bonded: set<Addr>, ds: map<Addr, nat>, v: Addr) {
    v !in ds && exists i | 0 <= i < |pool| :: pool[i] == v && forall j | 0 <= j < i && pool[j] in bonded :: pool[j] in ds
  }

  lemma {:induction false} FirstFound(a: seq<Addr>, v: Addr, ds: map<Addr, nat>)
    ensures FirstWithoutDelegation(a + [v], ds)
         == if FirstWithoutDelegation(a, ds).Some? then FirstWithoutDelegation(a, ds)
            else if v in ds then None else Some(v)
  {
    if a == [] {
      assert a + [v] == [v];
    } else {
      assert (a + [v])[1..] == a[1..] + [v];
      FirstFound(a[1..], v, ds);
    }
  }

  lemma {:induction false} FirstInPoolOrder(pool: seq<Addr>, bonded: set<Addr>, ds: map<Addr, nat>)
    ensures match FirstWithoutDelegation(Active(pool, bonded), ds)
            case Some(v) => v in bonded && FirstUndelegated(pool, bonded, ds, v)
            case None => forall u | ActiveMember(pool, bonded, u) :: u in ds
  {
    if pool != [] {
      var front, last := pool[..|pool| - 1], pool[|pool| - 1];
      assert pool == front + [last];
      FirstInPoolOrder(front, bonded, ds);
      FirstFound(Active(front, bonded), last, ds);
      match FirstWithoutDelegation(Active(front, bonded), ds)
      case Some(v) =>
        var i :| 0 <= i < |front| && front[i] == v && forall j | 0 <= j < i && front[j] in bonded :: front[j] in ds;
        assert pool[i] == v && forall j | 0 <= j < i && pool[j] in bonded :: pool[j] in ds;
      case None =>
        assert forall j | 0 <= j < |front| && front[j] in bonded :: ActiveMember(front, bonded, front[j]);
        assert pool[|pool| - 1] == last && forall j | 0 <= j < |pool| - 1 && pool[j] in bonded :: pool[j] in ds;
    }
  }

  lemma LeastTuple(s: seq<StakeTuple>, active: seq<Addr>, ds: map<Addr, nat>)
    requires s != [] && Sorted(s) && TuplesOf(s, active, ds)
    ensures s[0].1 in active && s[0] == (Held(ds, s[0].1), s[0].1)
    ensures forall u | u in active :: Before(s[0], (Held(ds, u), u))
  {
    assert s[0] in s;
    forall u | u in active ensures Before(s[0], (Held(ds, u), u)) {
      var i :| 0 <= i < |s| && s[i] == (Held(ds, u), u);
    }
  }

  lemma DepositChoice(pool: seq<Addr>, bonded: set<Addr>, ds: map<Addr, nat>)
    ensures var r := ValidatorForDeposit(pool, bonded, ds);
      && (r.Ok? <==> exists v :: ActiveMember(pool, bonded, v))
      && (r.Ok? ==> Chosen(pool, bonded, ds, r.value))
  {
    hide SortTuples, StakeTuples, Active, FirstWithoutDelegation, Sorted, TuplesOf, DistinctAddresses, NoDuplicates,
      Before;
    var active := Active(pool, bonded);
    DepositGoesToLeastDelegated(pool, bonded, ds);
    FirstInPoolOrder(pool, bonded, ds);
    ActiveMembers(pool, bonded);
    if ValidatorForDeposit(pool, bonded, ds).Ok? {
      var v := ValidatorForDeposit(pool, bonded, ds).value;
      assert ActiveMember(pool, bonded, v);
      if FirstWithoutDelegation(active, ds).None? {
        SortedActiveTuples(active, ds);
        LeastTuple(SortTuples(StakeTuples(active, ds)), active, ds);
      }
    }
  }

  // ---- What a deposit is worth ----

  function FeeOf(c: Config, amount: nat): nat {
    amount * c.protocolDepositFee / ONE
  }

  function StakedOf(c: Config, amount: nat): nat {
    SaturatingSub(amount, FeeOf(c, amount))
  }

  function TokensFor(staked: nat, rate: nat): nat {
    if rate == 0 then 0 else staked * ONE / rate
  }

  /** The tokens for `staked` can be calculated at `rate`. */
  predicate Priceable(staked: nat, rate: nat) {
    rate > 0 && staked * ONE < U128_LIMIT && staked * ONE * ONE / rate < U128_LIMIT
  }

  lemma BreakdownExactly(s: Store, amount: nat)
    requires amount < U128_LIMIT && s.config.protocolDepositFee <= DEPOSIT_FEE_CAP
    ensures ComputeDepositBreakdown(s, amount).Ok? <==> Priceable(StakedOf(s.config, amount), s.state.exchangeRate)
    ensures ComputeDepositBreakdown(s, amount).Ok? ==>
              ComputeDepositBreakdown(s, amount).value
              == DepositBreakdown(FeeOf(s.config, amount), StakedOf(s.config, amount),
                                  TokensFor(StakedOf(s.config, amount), s.state.exchangeRate))
    ensures FeeOf(s.config, amount) <= amount
  {
    hide ComputeDepositBreakdown;
    MulFloorAtMost(amount, s.config.protocolDepositFee);
    DepositIsPricedExactly(s, amount);
    if ComputeDepositBreakdown(s, amount).Ok? {
      DepositBreakdownIs(s, amount);
    }
  }

  /** The fee is capped, so some of every deposit above the least one is staked. */
  lemma SomethingIsStaked(c: Config, amount: nat)
    requires c.protocolDepositFee <= DEPOSIT_FEE_CAP && amount > 0
    ensures StakedOf(c, amount) > 0
  {
    MulMonotone(amount, amount, c.protocolDepositFee, ONE * 5 / 100);
    FloorBounds(amount * c.protocolDepositFee, ONE);
  }

  // ---- The handler ----

  /** Some member is active, and the stake still fits in 128 bits. */
  ghost predicate Stakeable(s: Store, ch: Chain, stake: nat, staked: nat) {
    && (exists v :: ActiveMember(s.state.validators, ch.bonded, v))
    && stake + staked < U128_LIMIT
  }

  predicate WithinBounds(c: Config, amount: nat) {
    c.minDeposit <= amount <= c.maxDeposit
  }

  ghost predicate DepositResponse(m: map<Addr, VMeta>, s: Store, ch: Chain, sender: Addr, amount: nat, r: Response,
                                  v: Addr) {
    var staked := StakedOf(s.config, amount);
    && r.store == s.(state := s.state.(totalStaked := s.state.totalStaked + staked),
                     validatorMeta := r.store.validatorMeta)
    && r.messages == SendMessages(s.config.protocolFeeContract, FeeOf(s.config, amount)) + [Delegate(v, staked)]
                     + MintMessages(sender, TokensFor(staked, s.state.exchangeRate))
    && SyncedTo(m, r.store.validatorMeta, s.state.validators, ch.delegations, Credit(ch.delegations, v, staked))
    && Chosen(s.state.validators, ch.bonded, ch.delegations, v)
  }

  lemma DepositSyncedExactly(m: map<Addr, VMeta>, s: Store, ch: Chain, sender: Addr, amount: nat) returns (v: Addr)
    requires SyncedTo(m, s.validatorMeta, s.state.validators, ch.delegations, ch.delegations)
    requires s.state.totalStaked == DelegatedSum(s.state.validators, ch.delegations)
    requires ConfigOk(s.config)
    ensures DepositSynced(s, ch, sender, amount).Ok?
      <==> && WithinBounds(s.config, amount)
           && Priceable(StakedOf(s.config, amount), s.state.exchangeRate)
           && Stakeable(s, ch, s.state.totalStaked, StakedOf(s.config, amount))
    ensures DepositSynced(s, ch, sender, amount).Ok?
      ==> DepositResponse(m, s, ch, sender, amount, DepositSynced(s, ch, sender, amount).value, v)
  {
    hide ValidatorForDeposit, IncreaseTrackedStake, ComputeDepositBreakdown, SyncedTo, MetaOf, StakedOf, FeeOf,
      TokensFor, Priceable, DelegatedSum, Chosen, SendMessages, MintMessages, Credit, Held;
    v := ValidatorForDeposit(s.state.validators, ch.bonded, ch.delegations).GetOr(0);
    if WithinBounds(s.config, amount) {
      BreakdownExactly(s, amount);
      SomethingIsStaked(s.config, amount);
      DepositChoice(s.state.validators, ch.bonded, ch.delegations);
      if ValidatorForDeposit(s.state.validators, ch.bonded, ch.delegations).Ok? {
        ChosenIsMember(s.state.validators, ch.bonded, ch.delegations, v);
        IncreasesMeta(s.validatorMeta, v, StakedOf(s.config, amount));
        StakeOf(m, s.validatorMeta, s.state.validators, ch.delegations, v);
        HeldAtMostSum(s.state.validators, ch.delegations, v);
        SyncedIncreases(m, s.validatorMeta, s.state.validators, ch.delegations, v, StakedOf(s.config, amount));
      }
    }
  }

  lemma ChosenIsMember(pool: seq<Addr>, bonded: set<Addr>, ds: map<Addr, nat>, v: Addr)
    requires Chosen(pool, bonded, ds, v)
    ensures v in pool && v in bonded
  {
  }

  // ---- The transaction ----

  /** What the messages of a deposit do: fee and stake leave the contract, and tokens are minted. */
  ghost predicate DepositPaid(ch: Chain, after: Chain, feeTo: Addr, fee: nat, v: Addr, staked: nat, to: Addr,
                              minted: nat) {
    && after == ch.(luna := after.luna, tokens := after.tokens, delegations := Credit(ch.delegations, v, staked),
                    supply := ch.supply + minted)
    && (forall a :: Held(after.luna, a) + (if a == SELF then fee + staked else 0)
                    == Held(ch.luna, a) + if a == feeTo then fee else 0)
    && (forall a :: Held(after.tokens, a) == Held(ch.tokens, a) + if a == to then minted else 0)
  }

  lemma DelegateOne(ch: Chain, v: Addr, staked: nat)
    requires staked <= Held(ch.luna, SELF)
    ensures var r := ExecuteAll(ch, [Delegate(v, staked)]);
      && r.Ok? && r.value == ch.(luna := r.value.luna, delegations := Credit(ch.delegations, v, staked))
      && forall a :: Held(r.value.luna, a) + (if a == SELF then staked else 0) == Held(ch.luna, a)
  {
    ExecuteOne(ch, Delegate(v, staked));
  }

  lemma MintSome(ch: Chain, to: Addr, minted: nat)
    ensures var r := ExecuteAll(ch, MintMessages(to, minted));
      && (r.Ok? <==> minted == 0 || ch.supply + minted < U128_LIMIT)
      && (r.Ok? ==> && r.value == ch.(tokens := r.value.tokens, supply := ch.supply + minted)
                    && forall a :: Held(r.value.tokens, a) == Held(ch.tokens, a) + if a == to then minted else 0)
  {
    ExecuteOne(ch, MintTokens(to, minted));
  }

  lemma DepositExecutes(ch: Chain, feeTo: Addr, fee: nat, v: Addr, staked: nat, to: Addr, minted: nat)
    requires fee + staked <= Held(ch.luna, SELF)
    ensures var r := ExecuteAll(ch, SendMessages(feeTo, fee) + [Delegate(v, staked)] + MintMessages(to, minted));
      && (r.Ok? <==> minted == 0 || ch.supply + minted < U128_LIMIT)
      && (r.Ok? ==> DepositPaid(ch, r.value, feeTo, fee, v, staked, to, minted))
  {
    hide ExecuteAll, SendMessages, MintMessages, Credit, Held;
    ExecuteAppend(ch, SendMessages(feeTo, fee) + [Delegate(v, staked)], MintMessages(to, minted));
    ExecuteAppend(ch, SendMessages(feeTo, fee), [Delegate(v, staked)]);
    SendOne(ch, feeTo, fee);
    var paid := ExecuteAll(ch, SendMessages(feeTo, fee)).value;
    assert Held(paid.luna, SELF) >= staked;
    DelegateOne(paid, v, staked);
    MintSome(ExecuteAll(paid, [Delegate(v, staked)]).value, to, minted);
  }

  /** The deposit of `amount` is done: `v` has the stake, the sender has paid the deposit and holds the tokens minted for
      it, and the fee contract has the fee. Nothing else has moved. */
  ghost predicate DepositedBy(w: World, t: World, sender: Addr, amount: nat, v: Addr) {
    var s := w.store; var staked := StakedOf(s.config, amount); var minted := TokensFor(staked, CheckedRate(w));
    && Chosen(s.state.validators, w.chain.bonded, w.chain.delegations, v)
    && t.store == s.(
         state := s.state.(totalStaked := PoolStake(w) + staked, exchangeRate := CheckedRate(w)),
         validatorMeta := t.store.validatorMeta)
    && SyncedTo(s.validatorMeta, t.store.validatorMeta, s.state.validators, w.chain.delegations, t.chain.delegations)
    && t.chain == w.chain.(luna := t.chain.luna, tokens := t.chain.tokens, supply := w.chain.supply + minted,
                           delegations := w.chain.delegations[v := Held(w.chain.delegations, v) + staked])
    && (forall a :: Held(t.chain.luna, a) + (if a == sender then amount else 0)
                    == Held(w.chain.luna, a) + if a == s.config.protocolFeeContract then FeeOf(s.config, amount) else 0)
    && (forall a :: Held(t.chain.tokens, a) == Held(w.chain.tokens, a) + if a == sender then minted else 0)
    && t.withdrawn == w.withdrawn
  }

  lemma SingleFund(funds: seq<Coin>)
    ensures SingleVaultFund(funds).Ok? <==> funds == [Coin(VAULT_DENOM, VaultAmount(funds))] && VaultAmount(funds) > 0
    ensures SingleVaultFund(funds).Ok? ==> SingleVaultFund(funds).value == VaultAmount(funds)
  {
    if SingleVaultFund(funds).Ok? {
      VaultAmountOfSingle(funds);
    }
  }

  /** When a deposit commits: deposits are not paused, the sender attaches exactly one coin in the vault denomination
      that it holds and that is within the bounds, some pool member is active, and nothing overflows. */
  ghost predicate DepositAccepted(w: World, sender: Addr, funds: seq<Coin>) {
    var s := w.store; var amount := VaultAmount(funds); var staked := StakedOf(s.config, amount);
    && !s.controls.depositPaused
    && funds == [Coin(VAULT_DENOM, amount)] && amount <= Held(w.chain.luna, sender)
    && WithinBounds(s.config, amount)
    && WorldCheckFits(w)
    && Priceable(staked, CheckedRate(w)) && Stakeable(s, w.chain, PoolStake(w), staked)
    && (TokensFor(staked, CheckedRate(w)) == 0 || w.chain.supply + TokensFor(staked, CheckedRate(w)) < U128_LIMIT)
  }

  lemma DepositHandled(w: World, before: Chain, sender: Addr, funds: seq<Coin>) returns (v: Addr)
    requires ConfigOk(w.store.config) && Attach(w.chain, sender, funds, CallDeposit) == Ok(before)
    ensures Transact(w, sender, funds, CallDeposit).Ok? <==> DepositAccepted(w, sender, funds)
    ensures Transact(w, sender, funds, CallDeposit).Ok? ==>
              && DepositAccepted(w, sender, funds)
              && DepositedFrom(w, before, Transact(w, sender, funds, CallDeposit).value, sender, VaultAmount(funds), v)
  {
    hide Attach, CheckSlashing, DepositSynced, ExecuteAll, SyncedTo, VaultAmount, CheckFits, RateOf, StakedOf, FeeOf,
      TokensFor, Priceable, Chosen, SingleVaultFund, DelegatedSum, SendMessages, MintMessages, ActiveMember;
    AttachExactly(w.chain, sender, funds, CallDeposit);
    SingleFund(funds);
    var amount := VaultAmount(funds);
    CheckSlashingExactly(w.store, before);
    v := 0;
    if CheckSlashing(w.store, before).Ok? {
      var s1 := CheckSlashing(w.store, before).value;
      v := DepositSyncedExactly(w.store.validatorMeta, s1, before, sender, amount);
      if DepositSynced(s1, before, sender, amount).Ok? {
        FeeWithin(s1.config, amount);
        AttachedIsThere(w.chain, before, sender, amount);
        DepositExecutes(before, s1.config.protocolFeeContract, FeeOf(s1.config, amount), v, StakedOf(s1.config, amount),
                        sender, TokensFor(StakedOf(s1.config, amount), s1.state.exchangeRate));
      }
    }
  }

  lemma AttachedIsThere(ch: Chain, before: Chain, sender: Addr, amount: nat)
    requires Moved(ch.luna, before.luna, sender, SELF, amount) && amount <= Held(ch.luna, sender)
    ensures amount <= Held(before.luna, SELF)
  {
  }

  /** The same as `DepositedBy`, as seen from the chain on which the deposited funds have arrived. */
  ghost predicate DepositedFrom(w: World, before: Chain, t: World, sender: Addr, amount: nat, v: Addr) {
    var s := w.store; var staked := StakedOf(s.config, amount); var minted := TokensFor(staked, CheckedRate(w));
    && Chosen(s.state.validators, w.chain.bonded, w.chain.delegations, v)
    && t.store == s.(
         state := s.state.(totalStaked := PoolStake(w) + staked, exchangeRate := CheckedRate(w)),
         validatorMeta := t.store.validatorMeta)
    && SyncedTo(s.validatorMeta, t.store.validatorMeta, s.state.validators, w.chain.delegations, t.chain.delegations)
    && DepositPaid(before, t.chain, s.config.protocolFeeContract, FeeOf(s.config, amount), v, staked, sender, minted)
    && t.withdrawn == w.withdrawn
  }

  lemma PaidFromAttached(w: World, before: Chain, t: World, sender: Addr, amount: nat, v: Addr)
    requires DepositedFrom(w, before, t, sender, amount, v) && ConfigOk(w.store.config)
    requires before == w.chain.(luna := before.luna) && Moved(w.chain.luna, before.luna, sender, SELF, amount)
    ensures DepositedBy(w, t, sender, amount, v)
  {
    hide SyncedTo, StakedOf, FeeOf, TokensFor, Chosen, RateOf, DelegatedSum, Held;
    FeeWithin(w.store.config, amount);
  }

  /** A deposit commits exactly when it should, and then it has exactly the effect of `DepositedBy`. */
  lemma DepositingExactly(w: World, sender: Addr, funds: seq<Coin>)
    requires ConfigOk(w.store.config)
    ensures var r := Transact(w, sender, funds, CallDeposit);
      && (r.Ok? <==> DepositAccepted(w, sender, funds))
      && (r.Ok? ==> exists v :: DepositedBy(w, r.value, sender, VaultAmount(funds), v))
  {
    hide Attach, Dispatch, ExecuteAll, VaultAmount, DepositedFrom, DepositedBy, Moved, ConfigOk, CheckFits, Priceable,
      Stakeable, StakedOf, TokensFor, RateOf, WithinBounds;
    AttachExactly(w.chain, sender, funds, CallDeposit);
    if Attach(w.chain, sender, funds, CallDeposit).Ok? {
      var before := Attach(w.chain, sender, funds, CallDeposit).value;
      var v := DepositHandled(w, before, sender, funds);
      if Transact(w, sender, funds, CallDeposit).Ok? {
        PaidFromAttached(w, before, Transact(w, sender, funds, CallDeposit).value, sender, VaultAmount(funds), v);
      }
    }
  }

  lemma FeeWithin(c: Config, amount: nat)
    requires ConfigOk(c)
    ensures FeeOf(c, amount) + StakedOf(c, amount) == amount
  {
    MulFloorAtMost(amount, c.protocolDepositFee);
  }

  /** Once the supply exceeds the stake 10^18-fold, the rate that a deposit starts by calculating is zero, and no deposit
      goes through. */
  lemma ZeroRateStopsDeposits(w: World, sender: Addr, funds: seq<Coin>)
    requires 0 < DelegatedSum(w.store.state.validators, w.chain.delegations)
    requires ONE * DelegatedSum(w.store.state.validators, w.chain.delegations) < w.chain.supply
    ensures Transact(w, sender, funds, CallDeposit).Err?
  {
    hide SyncPool, DelegatedSum, ExecuteAll, CalculateExchangeRate, VaultAmount, Move, ValidatorForDeposit, MulFloor;
    if Transact(w, sender, funds, CallDeposit).Ok? {
      ZeroRateExactly(DelegatedSum(w.store.state.validators, w.chain.delegations), w.chain.supply);
      assert false;
    }
  }
}
