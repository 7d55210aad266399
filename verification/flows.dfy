/** What the emitted messages do to the balances of the staking contract. */
module Flows {
  import opened Decimals
  import opened Sums
  import opened Storage
  import opened Handlers
  import opened Messages
  import opened RewardContract

  /** What a message brings to the contract's balance, less what it takes from it. */
  function NetLuna(m: Message): int {
    match m
    case BankSend(_, amount) => 0 - amount
    case Delegate(_, amount) => 0 - amount
    case TransferRewards(_, reward, withdrawTo, _, _) => if withdrawTo == SELF then reward else 0
    case _ => 0
  }

  function Burnt(m: Message): nat {
    match m
    case BurnTokens(amount) => amount
    case _ => 0
  }

  function TotalNetLuna(ms: seq<Message>): int {
    if ms == [] then 0 else NetLuna(ms[0]) + TotalNetLuna(ms[1..])
  }

  function TotalBurnt(ms: seq<Message>): nat {
    if ms == [] then 0 else Burnt(ms[0]) + TotalBurnt(ms[1..])
  }

  /** The balance of the contract and its tokens cover the messages executed, and the token balances add up to the
      supply. */
  ghost predicate Covers(ch: Chain, after: Chain, net: int, burnt: nat) {
    && Held(after.luna, SELF) >= Held(ch.luna, SELF) + net
    && Held(after.tokens, SELF) + burnt >= Held(ch.tokens, SELF)
    && (Total(ch.tokens) == ch.supply ==> Total(after.tokens) == after.supply)
  }

  lemma ExecuteSendCovers(ch: Chain, m: Message)
    requires m.BankSend? || m.Delegate? || m.UndelegateStake? || m.Redelegate?
    requires Execute(ch, m).Ok?
    ensures Covers(ch, Execute(ch, m).value, NetLuna(m), Burnt(m))
  {
  }

  lemma ExecuteTokensCovers(ch: Chain, m: Message)
    requires m.MintTokens? || m.BurnTokens?
    requires Execute(ch, m).Ok?
    ensures Covers(ch, Execute(ch, m).value, NetLuna(m), Burnt(m))
  {
    hide Total;
    match m
    case MintTokens(to, amount) => TotalCredit(ch.tokens, to, amount);
    case BurnTokens(amount) =>
      TotalDebit(ch.tokens, SELF, amount);
  }

  lemma SendAllTwo(luna: map<Addr, nat>, from: Addr, sends: seq<(Addr, nat)>)
    requires |sends| <= 2 && SendAll(luna, from, sends).Ok?
    ensures sends == [] ==> SendAll(luna, from, sends).value == luna
    ensures |sends| == 1 ==> Move(luna, from, sends[0].0, sends[0].1) == SendAll(luna, from, sends)
    ensures |sends| == 2 ==>
              && Move(luna, from, sends[0].0, sends[0].1).Ok?
              && Move(Move(luna, from, sends[0].0, sends[0].1).value, from, sends[1].0, sends[1].1)
              == SendAll(luna, from, sends)
  {
    if |sends| > 0 {
      var rest := Move(luna, from, sends[0].0, sends[0].1).value;
      assert SendAll(luna, from, sends) == SendAll(rest, from, sends[1..]);
      if |sends| == 2 {
        assert sends[1..] == [sends[1]];
        assert SendAll(rest, from, [sends[1]]) == SendAll(Move(rest, from, sends[1].0, sends[1].1).value, from, []);
      }
    }
  }

  lemma ExecuteRewardsCovers(ch: Chain, m: Message)
    requires m.TransferRewards? && Execute(ch, m).Ok?
    ensures Covers(ch, Execute(ch, m).value, NetLuna(m), Burnt(m))
  {
    var sends := Transfer(ch.rewardStakingContract, SELF, Held(ch.luna, REWARD), m.reward, m.withdrawTo, m.fee,
                          m.feeTo).value;
    SendAllTwo(ch.luna, REWARD, sends);
  }

  lemma {:induction false} ExecuteAllCovers(ch: Chain, ms: seq<Message>)
    requires ExecuteAll(ch, ms).Ok?
    ensures Covers(ch, ExecuteAll(ch, ms).value, TotalNetLuna(ms), TotalBurnt(ms))
    decreases |ms|
  {
    hide Execute, Total;
    if ms != [] {
      if ms[0].TransferRewards? {
        ExecuteRewardsCovers(ch, ms[0]);
      } else if ms[0].MintTokens? || ms[0].BurnTokens? {
        ExecuteTokensCovers(ch, ms[0]);
      } else {
        ExecuteSendCovers(ch, ms[0]);
      }
      ExecuteAllCovers(Execute(ch, ms[0]).value, ms[1..]);
    }
  }

  lemma {:induction false} NetAppend(a: seq<Message>, b: seq<Message>)
    ensures TotalNetLuna(a + b) == TotalNetLuna(a) + TotalNetLuna(b)
    ensures TotalBurnt(a + b) == TotalBurnt(a) + TotalBurnt(b)
  {
    if a == [] {
      assert a + b == b;
    } else {
      assert (a + b)[1..] == a[1..] + b;
      NetAppend(a[1..], b);
    }
  }

  lemma {:induction false} UndelegateMessagesNet(taken: seq<(Addr, nat)>, id: BatchId)
    ensures TotalNetLuna(UndelegateMessages(taken, id)) == 0 && TotalBurnt(UndelegateMessages(taken, id)) == 0
  {
    if taken != [] {
      UndelegateMessagesNet(taken[1..], id);
      assert UndelegateMessages(taken, id)[1..] == UndelegateMessages(taken[1..], id);
    }
  }

  // ---- Each handler is paid for ----

  lemma DepositFee(st: Store, amount: nat)
    requires ComputeDepositBreakdown(st, amount).Ok? && st.config.protocolDepositFee <= DEPOSIT_FEE_CAP
    ensures var b := ComputeDepositBreakdown(st, amount).value; b.protocolFee + b.stakedAmount == amount
  {
    MulFloorAtMost(amount, st.config.protocolDepositFee);
  }

  /** A deposit spends exactly what was deposited: the fee and the stake. */
  lemma DepositIsBalanced(s: Store, ch: Chain, sender: Addr, amount: nat)
    requires DepositSynced(s, ch, sender, amount).Ok? && s.config.protocolDepositFee <= DEPOSIT_FEE_CAP
    ensures var ms := DepositSynced(s, ch, sender, amount).value.messages;
      TotalNetLuna(ms) + amount == 0 && TotalBurnt(ms) == 0
  {
    hide ComputeDepositBreakdown, Selection.ValidatorForDeposit;
    var b := ComputeDepositBreakdown(s, amount).value;
    DepositFee(s, amount);
    var fees := SendMessages(s.config.protocolFeeContract, b.protocolFee);
    var mints := MintMessages(sender, b.tokensToMint);
    var v := Selection.ValidatorForDeposit(s.state.validators, ch.bonded, ch.delegations);
    NetAppend(fees, DelegateMessages(v.GetOr(0), b.stakedAmount));
    NetAppend(fees + DelegateMessages(v.GetOr(0), b.stakedAmount), mints);
  }

  /** Reinvesting delegates exactly the reward that the reward contract hands over. */
  lemma ReinvestIsBalanced(s: Store, ch: Chain, sender: Addr)
    requires ReinvestSynced(s, ch, sender).Ok?
    ensures var ms := ReinvestSynced(s, ch, sender).value.messages;
      TotalNetLuna(ms) == 0 && TotalBurnt(ms) == 0
  {
    hide RewardFee, Selection.ValidatorForDeposit, CalculateExchangeRate, IncreaseTrackedStake;
    var ms := ReinvestSynced(s, ch, sender).value.messages;
    NetAppend([ms[0]], ms[1..]);
    assert ms == [ms[0]] + ms[1..];
    assert ms[1..] == [] || (ms[1..] == [ms[1]] && ms[1].Delegate?);
  }

  /** An undelegation burns exactly the tokens of the batch and moves no funds. */
  lemma UndelegateIsBalanced(s: Store, ch: Chain, sender: Addr)
    requires UndelegateSynced(s, ch, sender).Ok?
    ensures var ms := UndelegateSynced(s, ch, sender).value.messages;
      && TotalNetLuna(ms) == 0
      && TotalBurnt(ms) == s.batches[s.state.currentUndelegationBatchId].undelegatedTokens
  {
    hide PlanUndelegation, MultiplyU128WithDecimal, DecreaseTrackedStakes, UndelegateMessages;
    var id := s.state.currentUndelegationBatchId;
    var b := s.batches[id];
    var stake := MultiplyU128WithDecimal(b.undelegatedTokens, s.state.exchangeRate).value;
    var taken := PlanUndelegation(s.state.validators, ch, stake).value;
    UndelegateMessagesNet(taken, id);
    NetAppend(UndelegateMessages(taken, id), [BurnTokens(b.undelegatedTokens)]);
  }

  /** A withdrawal sends the two parts of the claim. */
  lemma WithdrawIsBalanced(user: Addr, paid: nat, feeTo: Addr, fee: nat)
    ensures var ms := SendMessages(user, paid) + SendMessages(feeTo, fee);
      TotalNetLuna(ms) + paid + fee == 0 && TotalBurnt(ms) == 0
  {
    NetAppend(SendMessages(user, paid), SendMessages(feeTo, fee));
  }

  lemma PoolCallsAreBalanced(s: Store, ch: Chain, amount: nat, v: Addr, redel: Addr)
    ensures RemoveSynced(s, ch, v, redel).Ok? ==>
              var ms := RemoveSynced(s, ch, v, redel).value.messages; TotalNetLuna(ms) == 0 && TotalBurnt(ms) == 0
    ensures RebalanceSynced(s, ch, amount, v, redel).Ok? ==>
              var ms := RebalanceSynced(s, ch, amount, v, redel).value.messages;
              TotalNetLuna(ms) == 0 && TotalBurnt(ms) == 0
  {
    hide IncreaseTrackedStake, DecreaseTrackedStake, Without;
  }
}
