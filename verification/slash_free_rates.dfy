/** Without slashing the exchange rate never falls while there are tokens: the effect of each call. */
module SlashFreeRates {
  import opened Decimals
  import opened Sums
  import opened Storage
  import opened Selection
  import opened Handlers
  import opened Messages
  import opened Machine
  import opened Effects
  import opened Flows
  import opened Pool
  import opened PoolRuns
  import opened Rates

  // ---- The token supply ----

  function TotalMinted(ms: seq<Message>): nat {
    if ms == [] then 0
    else (match ms[0] case MintTokens(_, amount) => amount case _ => 0) + TotalMinted(ms[1..])
  }

  lemma {:induction false} MintedAppend(a: seq<Message>, b: seq<Message>)
    ensures TotalMinted(a + b) == TotalMinted(a) + TotalMinted(b)
  {
    if a == [] {
      assert a + b == b;
    } else {
      assert (a + b)[1..] == a[1..] + b;
      MintedAppend(a[1..], b);
    }
  }

  lemma MintedOne(m: Message)
    requires !m.MintTokens?
    ensures TotalMinted([m]) == 0
  {
    assert [m][1..] == [];
  }

  lemma ExecuteSupply(ch: Chain, m: Message)
    requires Execute(ch, m).Ok? && Total(ch.tokens) == ch.supply
    ensures var after := Execute(ch, m).value;
      && after.supply + Burnt(m) == ch.supply + (match m case MintTokens(_, amount) => amount case _ => 0)
      && Total(after.tokens) == after.supply
  {
    hide Total, Move, SendAll, RewardContract.Transfer;
    match m
    case BurnTokens(amount) =>
      HeldAtMostTotal(ch.tokens, SELF);
      TotalDebit(ch.tokens, SELF, amount);
    case MintTokens(to, amount) =>
      TotalCredit(ch.tokens, to, amount);
    case _ =>
  }

  /** The supply changes by what is minted and burnt. */
  lemma {:induction false} ExecuteAllSupply(ch: Chain, ms: seq<Message>)
    requires ExecuteAll(ch, ms).Ok? && Total(ch.tokens) == ch.supply
    ensures ExecuteAll(ch, ms).value.supply + TotalBurnt(ms) == ch.supply + TotalMinted(ms)
    decreases |ms|
  {
    hide Execute, Total;
    if ms != [] {
      ExecuteSupply(ch, ms[0]);
      ExecuteAllSupply(Execute(ch, ms[0]).value, ms[1..]);
    }
  }

  // ---- Each handler ----

  predicate Covered(s: Store, supply: nat) {
    RateCovered(s.state.exchangeRate, s.state.totalStaked, supply)
  }

  /** Rate and supply after a call that changed `s` to `t` by messages `ms`: still covered, and not lower as long as
      there were tokens. Without tokens the rate may be reset to one. */
  ghost predicate RateRises(s: Store, t: Store, supply: nat, ms: seq<Message>) {
    && TotalBurnt(ms) <= supply
    && Covered(t, supply + TotalMinted(ms) - TotalBurnt(ms))
    && (supply > 0 ==> s.state.exchangeRate <= t.state.exchangeRate)
    && (supply == 0 ==> t.state.exchangeRate == s.state.exchangeRate || t.state.exchangeRate == ONE)
  }

  lemma DepositMintsBreakdown(s: Store, ch: Chain, sender: Addr, amount: nat)
    requires DepositSynced(s, ch, sender, amount).Ok?
    ensures TotalMinted(DepositSynced(s, ch, sender, amount).value.messages)
         == ComputeDepositBreakdown(s, amount).value.tokensToMint
  {
    hide ValidatorForDeposit, IncreaseTrackedStake, ComputeDepositBreakdown;
    var b := ComputeDepositBreakdown(s, amount).value;
    var v := ValidatorForDeposit(s.state.validators, ch.bonded, ch.delegations).GetOr(0);
    var fees := SendMessages(s.config.protocolFeeContract, b.protocolFee);
    var front := fees + DelegateMessages(v, b.stakedAmount);
    MintedAppend(fees, DelegateMessages(v, b.stakedAmount));
    MintedAppend(front, MintMessages(sender, b.tokensToMint));
    assert DepositSynced(s, ch, sender, amount).value.messages == front + MintMessages(sender, b.tokensToMint);
  }

  lemma DepositRate(s: Store, ch: Chain, sender: Addr, amount: nat)
    requires Covered(s, ch.supply) && s.config.protocolDepositFee <= DEPOSIT_FEE_CAP
    requires DepositSynced(s, ch, sender, amount).Ok?
    ensures var r := DepositSynced(s, ch, sender, amount).value;
      && RateRises(s, r.store, ch.supply, r.messages)
      && TotalMinted(r.messages) == ComputeDepositBreakdown(s, amount).value.tokensToMint
      && r.store.state.exchangeRate == s.state.exchangeRate
  {
    hide ValidatorForDeposit, IncreaseTrackedStake, ComputeDepositBreakdown, RateCovered, TotalMinted;
    var b := ComputeDepositBreakdown(s, amount).value;
    DepositBreakdownIs(s, amount);
    DepositIsBalanced(s, ch, sender, amount);
    MintKeepsRate(s.state.exchangeRate, s.state.totalStaked, ch.supply, b.stakedAmount);
    DepositMintsBreakdown(s, ch, sender, amount);
  }

  lemma ReinvestRate(s: Store, ch: Chain, sender: Addr)
    requires Covered(s, ch.supply) && ReinvestSynced(s, ch, sender).Ok?
    ensures var r := ReinvestSynced(s, ch, sender).value; RateRises(s, r.store, ch.supply, r.messages)
  {
    hide RewardFee, ValidatorForDeposit, IncreaseTrackedStake, CalculateExchangeRate, RateCovered;
    var r := ReinvestSynced(s, ch, sender).value;
    var ms := r.messages;
    ReinvestIsBalanced(s, ch, sender);
    StakeKeepsRate(s.state.exchangeRate, s.state.totalStaked, ch.supply, ms[0].reward);
    FreshRate(s.state.exchangeRate, s.state.totalStaked + ms[0].reward, ch.supply);
    MintedAppend([ms[0]], ms[1..]);
    assert ms == [ms[0]] + ms[1..];
    assert ms[1..] == [] || (ms[1..] == [ms[1]] && ms[1].Delegate?);
  }

  lemma {:induction false} UndelegateMessagesMintNothing(taken: seq<(Addr, nat)>, id: BatchId)
    ensures TotalMinted(UndelegateMessages(taken, id)) == 0
  {
    if taken != [] {
      UndelegateMessagesMintNothing(taken[1..], id);
      assert UndelegateMessages(taken, id)[1..] == UndelegateMessages(taken[1..], id);
    }
  }

  lemma UndelegateRate(s: Store, ch: Chain, sender: Addr)
    requires Covered(s, ch.supply) && UndelegateSynced(s, ch, sender).Ok?
    requires BatchAt(s.batches, s.state.currentUndelegationBatchId).undelegatedTokens <= ch.supply
    ensures var r := UndelegateSynced(s, ch, sender).value;
      && RateRises(s, r.store, ch.supply, r.messages)
      && r.store.state.exchangeRate == s.state.exchangeRate
  {
    hide PlanUndelegation, DecreaseTrackedStakes, UndelegateMessages, MulFloor, RateCovered;
    var id := s.state.currentUndelegationBatchId;
    var b := s.batches[id];
    var stake := MultiplyU128WithDecimal(b.undelegatedTokens, s.state.exchangeRate).value;
    var taken := PlanUndelegation(s.state.validators, ch, stake).value;
    UndelegateIsBalanced(s, ch, sender);
    UndelegateMessagesMintNothing(taken, id);
    MintedAppend(UndelegateMessages(taken, id), [BurnTokens(b.undelegatedTokens)]);
    BurnKeepsRate(s.state.exchangeRate, s.state.totalStaked, ch.supply, b.undelegatedTokens);
  }

  lemma PoolCallsKeepRate(s: Store, ch: Chain, amount: nat, v: Addr, redel: Addr)
    requires Covered(s, ch.supply)
    ensures RemoveSynced(s, ch, v, redel).Ok? ==>
              var r := RemoveSynced(s, ch, v, redel).value; RateRises(s, r.store, ch.supply, r.messages)
    ensures RebalanceSynced(s, ch, amount, v, redel).Ok? ==>
              var r := RebalanceSynced(s, ch, amount, v, redel).value; RateRises(s, r.store, ch.supply, r.messages)
  {
    hide IncreaseTrackedStake, DecreaseTrackedStake, Without, RateCovered;
    PoolCallsAreBalanced(s, ch, amount, v, redel);
    MintedOne(Redelegate(v, redel, Held(ch.delegations, v)));
    MintedOne(Redelegate(v, redel, amount));
  }

  lemma OtherCallsKeepRate(s: Store, ch: Chain, sender: Addr, funds: seq<Coin>, call: Call)
    requires Covered(s, ch.supply) && !ChecksSlashing(call) && Dispatch(s, ch, sender, funds, call).Ok?
    ensures var r := Dispatch(s, ch, sender, funds, call).value;
      && RateRises(s, r.store, ch.supply, r.messages)
      && r.store.state.exchangeRate == s.state.exchangeRate
  {
    hide Deposit, Reinvest, RedeemRewards, QueueUndelegation, UndelegateStakeHandler, RemoveValidatorFromPool,
      RebalancePool, ComputeWithdrawableFunds, ReleasedUpTo, ExpectedStake, MarkReconciled, RateCovered;
    if call.CallWithdraw? {
      var c := ComputeWithdrawableFunds(s, call.id, sender).value;
      var ms1 := SendMessages(sender, c.userWithdrawalAmount);
      var ms2 := SendMessages(s.config.protocolFeeContract, c.protocolFee);
      NetAppend(ms1, ms2);
      MintedAppend(ms1, ms2);
    }
  }

  /** Every call keeps the rate covered and does not lower it while there are tokens. */
  lemma CallsKeepRate(s: Store, ch: Chain, sender: Addr, funds: seq<Coin>, call: Call)
    requires PoolOk(s, ch.delegations) && Tracks(s, ch.delegations) && Covered(s, ch.supply)
    requires s.config.protocolDepositFee <= DEPOSIT_FEE_CAP
    requires BatchAt(s.batches, s.state.currentUndelegationBatchId).undelegatedTokens <= ch.supply
    requires Dispatch(s, ch, sender, funds, call).Ok?
    ensures var r := Dispatch(s, ch, sender, funds, call).value; RateRises(s, r.store, ch.supply, r.messages)
    ensures ChecksSlashing(call) ==> CheckSlashing(s, ch).Ok?
  {
    hide PoolOk, Tracks, CheckSlashing, DepositSynced, ReinvestSynced, RemoveSynced, RebalanceSynced, QueueSynced,
      UndelegateSynced, RateCovered, CalculateExchangeRate;
    if ChecksSlashing(call) {
      var s1 := CheckSlashing(s, ch).value;
      CheckWithoutSlashing(s, ch);
      match call
      case CallDeposit => DepositRate(s1, ch, sender, SingleVaultFund(funds).value);
      case CallReinvest => ReinvestRate(s1, ch, sender);
      case CallQueueUndelegation(amount) => QueueSyncedEffect(s1, sender, amount);
      case CallUndelegate => UndelegateRate(s1, ch, sender);
      case CallRemoveValidator(v, redel) => PoolCallsKeepRate(s1, ch, 0, v, redel);
      case CallRebalancePool(amount, v, redel) => PoolCallsKeepRate(s1, ch, amount, v, redel);
      case CallRedeemRewards =>
    } else {
      OtherCallsKeepRate(s, ch, sender, funds, call);
    }
  }
}
