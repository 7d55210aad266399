/** Deposits keep the delegations of the pool level. */
module Balancing {
  import opened Results
  import opened Decimals
  import opened Sums
  import opened Storage
  import opened Selection
  import opened SelectionProofs
  import opened Handlers
  import opened Messages
  import opened Machine
  import opened Solvency
  import opened Pool

  /** No two pool members are more than `bound` apart. */
  ghost predicate Level(pool: seq<Addr>, ds: map<Addr, nat>, bound: nat) {
    forall u, v | u in pool && v in pool :: Held(ds, u) <= Held(ds, v) + bound
  }

  /** What of the attached funds is staked. */
  function StakedPart(c: Config, funds: seq<Coin>): nat {
    SaturatingSub(VaultAmount(funds), MulFloor(VaultAmount(funds), c.protocolDepositFee))
  }

  lemma CreditLeastKeepsLevel(pool: seq<Addr>, ds: map<Addr, nat>, bound: nat, v: Addr, amount: nat)
    requires Level(pool, ds, bound) && amount <= bound
    requires v in pool && forall u | u in pool :: Held(ds, v) <= Held(ds, u)
    ensures Level(pool, Credit(ds, v, amount), bound)
  {
  }

  lemma DepositSyncedDelegates(s: Store, ch: Chain, sender: Addr, amount: nat)
    requires DepositSynced(s, ch, sender, amount).Ok?
    ensures var r := DepositSynced(s, ch, sender, amount).value;
      var staked := SaturatingSub(amount, MulFloor(amount, s.config.protocolDepositFee));
      var target := ValidatorForDeposit(s.state.validators, ch.bonded, ch.delegations);
      && r.store.state.validators == s.state.validators && r.store.config == s.config
      && (staked == 0 || target.Ok?)
      && StakingEffects(ch.delegations, r.messages)
         == Ok(if staked == 0 then ch.delegations else Credit(ch.delegations, target.value, staked))
  {
    hide ValidatorForDeposit, IncreaseTrackedStake, StakingEffects, Credit;
    var ds := ch.delegations;
    var b := ComputeDepositBreakdown(s, amount).value;
    SendsDoNotStake(s.config.protocolFeeContract, b.protocolFee);
    SendsDoNotStake(sender, b.tokensToMint);
    if b.stakedAmount == 0 {
      StakingAppend(ds, SendMessages(s.config.protocolFeeContract, b.protocolFee), MintMessages(sender, b.tokensToMint));
    } else {
      StakingMiddle(ds, SendMessages(s.config.protocolFeeContract, b.protocolFee),
                    Delegate(ValidatorForDeposit(s.state.validators, ch.bonded, ds).value, b.stakedAmount),
                    MintMessages(sender, b.tokensToMint));
    }
  }

  lemma {:induction false} ExecuteAllKeepsBonded(ch: Chain, ms: seq<Message>)
    requires ExecuteAll(ch, ms).Ok?
    ensures ExecuteAll(ch, ms).value.bonded == ch.bonded
    decreases |ms|
  {
    hide Credit, Debit, Move, SendAll, RewardContract.Transfer;
    if ms != [] {
      ExecuteAllKeepsBonded(Execute(ch, ms[0]).value, ms[1..]);
    }
  }

  /** An accepted deposit adds what it stakes to the delegation of one least delegated member. */
  lemma DepositDelegates(w: World, sender: Addr, funds: seq<Coin>)
    requires Transact(w, sender, funds, CallDeposit).Ok?
    ensures var t := Transact(w, sender, funds, CallDeposit).value;
      var staked := StakedPart(w.store.config, funds);
      var target := ValidatorForDeposit(w.store.state.validators, w.chain.bonded, w.chain.delegations);
      && t.store.state.validators == w.store.state.validators && t.store.config == w.store.config
      && t.chain.bonded == w.chain.bonded
      && (staked == 0 || target.Ok?)
      && t.chain.delegations
         == (if staked == 0 then w.chain.delegations else Credit(w.chain.delegations, target.value, staked))
  {
    hide ExecuteAll, CheckSlashing, DepositSynced, ValidatorForDeposit, MulFloor, Credit, VaultAmount, Move;
    var before := Attach(w.chain, sender, funds, CallDeposit).value;
    var amount := SingleVaultFund(funds).value;
    VaultAmountOfSingle(funds);
    Effects.CheckSlashingEffect(w.store, before);
    var s1 := CheckSlashing(w.store, before).value;
    var ms := DepositSynced(s1, before, sender, amount).value.messages;
    DepositSyncedDelegates(s1, before, sender, amount);
    ExecuteAllStakes(before, ms);
    ExecuteAllKeepsBonded(before, ms);
  }

  /** Deposits only, each staking at most `most`. */
  ghost predicate DepositsUpTo(c: Config, es: seq<Event>, most: nat) {
    forall i | 0 <= i < |es| :: es[i].Tx? && es[i].call.CallDeposit? && StakedPart(c, es[i].funds) <= most
  }

  ghost predicate AllActive(pool: seq<Addr>, bonded: set<Addr>) {
    forall v | v in pool :: v in bonded
  }

  lemma DepositKeepsLevel(w: World, e: Event, bound: nat)
    requires e.Tx? && e.call.CallDeposit? && StakedPart(w.store.config, e.funds) <= bound
    requires AllActive(w.store.state.validators, w.chain.bonded)
    requires Level(w.store.state.validators, w.chain.delegations, bound)
    ensures var t := Step(w, e);
      && t.store.state.validators == w.store.state.validators && t.store.config == w.store.config
      && t.chain.bonded == w.chain.bonded
      && Level(t.store.state.validators, t.chain.delegations, bound)
  {
    hide Transact, ValidatorForDeposit, StakedPart, Level, Credit;
    if Accepted(w, e) {
      DepositDelegates(w, e.sender, e.funds);
      DepositGoesToLeastDelegated(w.store.state.validators, w.chain.bonded, w.chain.delegations);
      if StakedPart(w.store.config, e.funds) > 0 {
        CreditLeastKeepsLevel(w.store.state.validators, w.chain.delegations, bound,
                              ValidatorForDeposit(w.store.state.validators, w.chain.bonded, w.chain.delegations).value,
                              StakedPart(w.store.config, e.funds));
      }
    }
  }

  /** Over any run of deposits on a pool whose members are all active, with every deposit staking at most `most`, the
      spread between the largest and the smallest delegation never exceeds the larger of the spread at the start and
      `most`. */
  lemma {:induction false} DepositsKeepPoolLevel(w: World, es: seq<Event>, spread: nat, most: nat)
    requires AllActive(w.store.state.validators, w.chain.bonded)
    requires Level(w.store.state.validators, w.chain.delegations, spread)
    requires DepositsUpTo(w.store.config, es, most)
    ensures Level(w.store.state.validators, Run(w, es).chain.delegations, if spread < most then most else spread)
    decreases |es|
  {
    hide Step, StakedPart;
    var bound := if spread < most then most else spread;
    if es != [] {
      DepositKeepsLevel(w, es[0], bound);
      DepositsKeepPoolLevel(Step(w, es[0]), es[1..], bound, most);
    }
  }
}
