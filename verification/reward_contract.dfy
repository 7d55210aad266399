/** The reward contract's `transfer`: the counterparty of the staking contract's `reinvest`. */
module RewardContract {
  import opened Results
  import opened Decimals
  import opened Storage

  /** The sends a transfer leads to, given the reward contract's balance. */
  function Transfer(stakingContract: Addr, sender: Addr, balance: nat, rewardAmount: nat, withdrawTo: Addr,
                    protocolFee: nat, feeTo: Addr): Result<seq<(Addr, nat)>>
  {
    if sender != stakingContract then Err(Unauthorized) else
    var total :- AddU128(rewardAmount, protocolFee);
    :- Need(total <= balance, InSufficientFunds);
    Ok((if rewardAmount == 0 then [] else [(withdrawTo, rewardAmount)])
       + if protocolFee == 0 then [] else [(feeTo, protocolFee)])
  }

  class Reward {
    var manager: Addr
    var stakingContract: Addr

    constructor (sender: Addr, stakingContract: Addr)
      ensures manager == sender && this.stakingContract == stakingContract
    {
      manager := sender;
      this.stakingContract := stakingContract;
    }

    /** Pushes the sends onto a list; nothing in storage changes. */
    method TransferRewards(sender: Addr, balance: nat, rewardAmount: nat, withdrawTo: Addr, protocolFee: nat,
                           feeTo: Addr) returns (r: Result<seq<(Addr, nat)>>)
      ensures r == Transfer(stakingContract, sender, balance, rewardAmount, withdrawTo, protocolFee, feeTo)
    {
      if sender != stakingContract {
        return Err(Unauthorized);
      }
      var total :- AddU128(rewardAmount, protocolFee);
      if balance < total {
        return Err(InSufficientFunds);
      }
      var messages := [];
      if rewardAmount != 0 {
        messages := messages + [(withdrawTo, rewardAmount)];
      }
      if protocolFee != 0 {
        messages := messages + [(feeTo, protocolFee)];
      }
      assert messages == (if rewardAmount == 0 then [] else [(withdrawTo, rewardAmount)])
                         + if protocolFee == 0 then [] else [(feeTo, protocolFee)];
      return Ok(messages);
    }

    /** Only the manager may point the contract at another staking contract. */
    method UpdateConfig(sender: Addr, contract: Option<Addr>) returns (r: Result<()>)
      modifies this`stakingContract
      ensures r.Ok? <==> sender == manager
      ensures stakingContract == if r.Ok? && contract.Some? then contract.value else old(stakingContract)
    {
      if sender != manager {
        return Err(Unauthorized);
      }
      if contract.Some? {
        stakingContract := contract.value;
      }
      return Ok(());
    }
  }
}
