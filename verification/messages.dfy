/** How the chain executes the messages the contract emits: in order, each either taking effect or aborting the
    transaction. Transfers, delegations and token movements fail exactly when the balance they draw on is short. */
module Messages {
  import opened Results
  import opened Decimals
  import opened Sums
  import opened Storage
  import opened RewardContract

  function SendAll(luna: map<Addr, nat>, from: Addr, sends: seq<(Addr, nat)>): Result<map<Addr, nat>>
    decreases |sends|
  {
    if sends == [] then Ok(luna)
    else
      var rest :- Move(luna, from, sends[0].0, sends[0].1);
      SendAll(rest, from, sends[1..])
  }

  function Execute(ch: Chain, m: Message): Result<Chain> {
    match m
    case BankSend(to, amount) =>
      var luna :- Move(ch.luna, SELF, to, amount);
      Ok(ch.(luna := luna))
    case Delegate(v, amount) =>
      var luna :- Debit(ch.luna, SELF, amount);
      Ok(ch.(luna := luna, delegations := Credit(ch.delegations, v, amount)))
    case UndelegateStake(v, amount, batch) =>
      var ds :- Debit(ch.delegations, v, amount);
      Ok(ch.(delegations := ds, unbonding := Credit(ch.unbonding, batch, amount)))
    case Redelegate(src, dst, amount) =>
      var ds :- Move(ch.delegations, src, dst, amount);
      Ok(ch.(delegations := ds))
    case MintTokens(to, amount) =>
      var supply :- AddU128(ch.supply, amount);
      Ok(ch.(tokens := Credit(ch.tokens, to, amount), supply := supply))
    case BurnTokens(amount) =>
      var tokens :- Debit(ch.tokens, SELF, amount);
      Ok(ch.(tokens := tokens, supply := SaturatingSub(ch.supply, amount)))
    case TransferRewards(contract, reward, withdrawTo, fee, feeTo) =>
      :- Need(contract == REWARD, Std);
      var sends :- Transfer(ch.rewardStakingContract, SELF, Held(ch.luna, REWARD), reward, withdrawTo, fee, feeTo);
      var luna :- SendAll(ch.luna, REWARD, sends);
      Ok(ch.(luna := luna))
  }

  function ExecuteAll(ch: Chain, ms: seq<Message>): Result<Chain>
    decreases |ms|
  {
    if ms == [] then Ok(ch)
    else
      var rest :- Execute(ch, ms[0]);
      ExecuteAll(rest, ms[1..])
  }

  lemma {:induction false} ExecuteAppend(ch: Chain, a: seq<Message>, b: seq<Message>)
    ensures ExecuteAll(ch, a + b) == (match ExecuteAll(ch, a)
                                      case Ok(mid) => ExecuteAll(mid, b)
                                      case Err(e) => Err(e))
    decreases |a|
  {
    if a == [] {
      assert a + b == b;
    } else {
      assert (a + b)[1..] == a[1..] + b;
      if Execute(ch, a[0]).Ok? {
        ExecuteAppend(Execute(ch, a[0]).value, a[1..], b);
      }
    }
  }
}
