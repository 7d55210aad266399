/** The exchange rate: rounding in minting, undelegating and reinvesting never works against the token holders. */
module Rates {
  import opened Results
  import opened Decimals
  import opened Storage
  import opened Handlers
  import opened Pool
  import opened PoolRuns

  /** The rate is positive and values the supply at no more than the stake behind it. */
  predicate RateCovered(rate: nat, stake: nat, supply: nat) {
    rate > 0 && rate * supply <= ONE * stake
  }

  lemma CoveredSupplyHasStake(rate: nat, stake: nat, supply: nat)
    requires RateCovered(rate, stake, supply) && supply > 0
    ensures stake > 0
  {
    MulMonotone(1, rate, 1, supply);
  }

  /** A freshly calculated rate is covered and, as long as there are tokens, not below the rate before. Without tokens
      it is one. */
  lemma FreshRate(rate: nat, stake: nat, supply: nat)
    requires RateCovered(rate, stake, supply) && CalculateExchangeRate(stake, supply).Ok?
    ensures var next := CalculateExchangeRate(stake, supply).value;
      && RateCovered(next, stake, supply)
      && (supply > 0 ==> rate <= next)
      && (supply == 0 ==> next == ONE)
  {
    if supply > 0 {
      CoveredSupplyHasStake(rate, stake, supply);
      FloorBounds(stake * ONE, supply);
      assert supply * rate <= stake * ONE;
      QuotientAtLeast(stake * ONE, supply, rate);
    }
  }

  /** More stake behind the same supply keeps the rate covered. */
  lemma StakeKeepsRate(rate: nat, stake: nat, supply: nat, more: nat)
    requires RateCovered(rate, stake, supply)
    ensures RateCovered(rate, stake + more, supply)
  {
  }

  /** Minting at the current rate keeps it covered. */
  lemma MintKeepsRate(rate: nat, stake: nat, supply: nat, staked: nat)
    requires RateCovered(rate, stake, supply)
    ensures RateCovered(rate, stake + staked, supply + staked * ONE / rate)
  {
    var minted := staked * ONE / rate;
    FloorBounds(staked * ONE, rate);
    assert rate * (supply + minted) == rate * supply + rate * minted;
  }

  /** Undelegating at the current rate takes no more than there is and keeps the rate covered. */
  lemma BurnKeepsRate(rate: nat, stake: nat, supply: nat, burnt: nat)
    requires RateCovered(rate, stake, supply) && burnt <= supply
    ensures MulFloor(burnt, rate) <= stake
    ensures RateCovered(rate, stake - MulFloor(burnt, rate), supply - burnt)
  {
    var taken := MulFloor(burnt, rate);
    FloorBounds(burnt * rate, ONE);
    MulMonotone(burnt, supply, rate, rate);
    assert rate * (supply - burnt) == rate * supply - burnt * rate;
  }

  /** Holders who burn tokens make the remaining ones worth no less. */
  lemma FewerTokensKeepRate(rate: nat, stake: nat, supply: nat, fewer: nat)
    requires RateCovered(rate, stake, supply) && fewer <= supply
    ensures RateCovered(rate, stake, fewer)
  {
    MulMonotone(rate, rate, fewer, supply);
  }

  /** Minting goes through two decimals and back, and still gives exactly `floor(staked * 10^18 / rate)` tokens; the
      fee and the stake make up the deposit. */
  lemma DepositBreakdownIs(st: Store, amount: nat)
    requires ComputeDepositBreakdown(st, amount).Ok? && st.config.protocolDepositFee <= DEPOSIT_FEE_CAP
    ensures var b := ComputeDepositBreakdown(st, amount).value;
      && st.state.exchangeRate > 0
      && b.protocolFee == MulFloor(amount, st.config.protocolDepositFee)
      && b.stakedAmount == amount - b.protocolFee
      && b.tokensToMint == b.stakedAmount * ONE / st.state.exchangeRate
  {
    MulFloorAtMost(amount, st.config.protocolDepositFee);
    var staked := amount - MulFloor(amount, st.config.protocolDepositFee);
    var rate := st.state.exchangeRate;
    DecimalDetour(staked, rate);
  }

  /** When a deposit can be priced at all: the rate must not be zero, and the two decimals on the way must fit in 128
      bits. */
  lemma DepositIsPricedExactly(st: Store, amount: nat)
    requires amount < U128_LIMIT && st.config.protocolDepositFee <= DEPOSIT_FEE_CAP
    ensures var staked := amount - MulFloor(amount, st.config.protocolDepositFee);
      ComputeDepositBreakdown(st, amount).Ok?
      <==> st.state.exchangeRate > 0 && staked * ONE < U128_LIMIT
           && staked * ONE * ONE / st.state.exchangeRate < U128_LIMIT
  {
    MulFloorAtMost(amount, st.config.protocolDepositFee);
    var staked := amount - MulFloor(amount, st.config.protocolDepositFee);
    QuotientIs(staked * ONE, 1, staked * ONE);
  }

  lemma DecimalDetour(staked: nat, rate: nat)
    requires rate > 0
    ensures staked * ONE / 1 * ONE / rate / ONE == staked * ONE / rate
  {
    var x := staked * ONE;
    NestedFloor(x * ONE, rate, ONE);
    NestedFloor(x * ONE, ONE, rate);
    QuotientIs(x * ONE, ONE, x);
  }

  /** The reward fee also survives its detour through decimals: it is `floor(balance * fee / 10^18)`, so reward and fee
      add up to the balance. */
  lemma RewardFeeIs(balance: nat, fee: nat)
    requires RewardFee(balance, fee).Ok? && fee <= REWARD_FEE_CAP
    ensures RewardFee(balance, fee).value == MulFloor(balance, fee) <= balance
  {
    MulFloorAtMost(balance, fee);
    var x := balance * ONE;
    assert fee * x == (balance * fee) * ONE;
    QuotientIs((balance * fee) * ONE, ONE, balance * fee);
  }

  /** The rate calculated for a positive stake is zero exactly when the supply exceeds the stake 10^18-fold: the
      comment in the source that it is never zero holds only below that. */
  lemma ZeroRateExactly(stake: nat, supply: nat)
    requires CalculateExchangeRate(stake, supply).Ok?
    ensures CalculateExchangeRate(stake, supply).value == 0 <==> stake > 0 && supply > ONE * stake
  {
    if stake > 0 && supply > 0 {
      FloorBounds(stake * ONE, supply);
      if supply <= ONE * stake {
        QuotientAtLeast(stake * ONE, supply, 1);
      } else {
        QuotientIs(stake * ONE, supply, 0);
      }
    }
  }

  /** Without slashing a check changes nothing but the rate, which it does not lower while there are tokens. */
  lemma CheckWithoutSlashing(s: Store, ch: Chain)
    requires PoolOk(s, ch.delegations) && Tracks(s, ch.delegations) && CheckSlashing(s, ch).Ok?
    requires RateCovered(s.state.exchangeRate, s.state.totalStaked, ch.supply)
    ensures var t := CheckSlashing(s, ch).value;
      && t == s.(state := s.state.(exchangeRate := t.state.exchangeRate))
      && Ok(t.state.exchangeRate) == CalculateExchangeRate(s.state.totalStaked, ch.supply)
      && RateCovered(t.state.exchangeRate, t.state.totalStaked, ch.supply)
      && (ch.supply > 0 ==> s.state.exchangeRate <= t.state.exchangeRate)
      && (ch.supply == 0 ==> t.state.exchangeRate == ONE)
  {
    hide CalculateExchangeRate, RateCovered, SyncPool, DelegatedSum, StakedSum;
    TotalIsDelegated(s, ch.delegations);
    CheckKeepsMeta(s, ch);
    FreshRate(s.state.exchangeRate, s.state.totalStaked, ch.supply);
  }

  lemma CheckKeepsMeta(s: Store, ch: Chain)
    requires PoolOk(s, ch.delegations) && Tracks(s, ch.delegations) && CheckSlashing(s, ch).Ok?
    ensures CheckSlashing(s, ch).value.validatorMeta == s.validatorMeta
  {
    hide CalculateExchangeRate, SyncPool, DelegatedSum, StakedSum, NoDuplicates;
    var m := CheckSlashing(s, ch).value.validatorMeta;
    SyncPoolIs(s.validatorMeta, s.state.validators, ch.delegations);
    forall v | v in s.validatorMeta ensures v in m && m[v] == s.validatorMeta[v] {
      assert v in s.state.validators;
    }
  }
}
