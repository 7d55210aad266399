/** The contract on its chain: transactions, the environment, and runs. */
module Machine {
  import opened Results
  import opened Sums
  import opened Storage
  import opened Handlers
  import opened Messages

  datatype Call =
    | CallDeposit
    | CallReinvest
    | CallRedeemRewards
    | CallQueueUndelegation(amount: nat)
    | CallUndelegate
    | CallReconcileFunds
    | CallWithdraw(id: BatchId)
    | CallAddValidator(v: Addr)
    | CallRemoveValidator(v: Addr, redel: Addr)
    | CallRebalancePool(amount: nat, v: Addr, redel: Addr)
    | CallUpdateConfig(update: ConfigUpdate)
    | CallUpdateOperationFlags(flags: FlagsUpdate)

  /** Storage and chain, with the tokens withdrawn so far from each batch as a history variable. */
  datatype World = World(store: Store, chain: Chain, withdrawn: map<BatchId, nat>)

  function Dispatch(st: Store, ch: Chain, sender: Addr, funds: seq<Coin>, call: Call): Result<Response> {
    match call
    case CallDeposit => Deposit(st, ch, sender, funds)
    case CallReinvest => Reinvest(st, ch, sender)
    case CallRedeemRewards => RedeemRewards(st, ch)
    case CallQueueUndelegation(amount) => QueueUndelegation(st, ch, sender, amount)
    case CallUndelegate => UndelegateStakeHandler(st, ch, sender)
    case CallReconcileFunds => ReconcileFunds(st, ch)
    case CallWithdraw(id) => WithdrawFundsToWallet(st, sender, id)
    case CallAddValidator(v) => AddValidator(st, ch, sender, v)
    case CallRemoveValidator(v, redel) => RemoveValidatorFromPool(st, ch, sender, v, redel)
    case CallRebalancePool(amount, v, redel) => RebalancePool(st, ch, sender, amount, v, redel)
    case CallUpdateConfig(update) => UpdateConfig(st, sender, update)
    case CallUpdateOperationFlags(flags) => UpdateOperationFlags(st, sender, flags)
  }

  function VaultAmount(funds: seq<Coin>): nat {
    if funds == [] then 0
    else VaultAmount(funds[..|funds| - 1])
         + if funds[|funds| - 1].denom == VAULT_DENOM then funds[|funds| - 1].amount else 0
  }

  /** What reaches the contract together with a call: the attached funds, and for an undelegation the tokens that the
      token contract moves before it calls the staking contract. Empty token transfers are refused there. */
  function Attach(ch: Chain, sender: Addr, funds: seq<Coin>, call: Call): Result<Chain> {
    var luna :- Move(ch.luna, sender, SELF, VaultAmount(funds));
    if call.CallQueueUndelegation? then
      :- Need(call.amount != 0, ZeroAmount);
      var tokens :- Move(ch.tokens, sender, SELF, call.amount);
      Ok(ch.(luna := luna, tokens := tokens))
    else Ok(ch.(luna := luna))
  }

  function Withdrawals(w: World, sender: Addr, call: Call): map<BatchId, nat> {
    if call.CallWithdraw? && (sender, call.id) in w.store.users
    then Credit(w.withdrawn, call.id, w.store.users[(sender, call.id)].tokenAmount)
    else w.withdrawn
  }

  /** A whole transaction. An error anywhere in it, in the handler or in an emitted message, undoes all of it. */
  function Transact(w: World, sender: Addr, funds: seq<Coin>, call: Call): Result<World> {
    var before :- Attach(w.chain, sender, funds, call);
    var response :- Dispatch(w.store, before, sender, funds, call);
    var after :- ExecuteAll(before, response.messages);
    Ok(World(response.store, after, Withdrawals(w, sender, call)))
  }

  /** Transactions and what else happens on the chain. A slash of a delegation or of unbonding stake leaves the given
      amount of it. */
  datatype Event =
    | Tx(sender: Addr, funds: seq<Coin>, call: Call)
    | AdvanceTime(to: nat)
    | SlashDelegation(v: Addr, left: nat)
    | SlashUnbonding(id: BatchId, left: nat)
    | PayOutUnbonding(id: BatchId)
    | ReceiveLuna(to: Addr, amount: nat)
    | TransferLuna(from: Addr, to: Addr, amount: nat)
    | TransferTokens(from: Addr, to: Addr, amount: nat)
    | BurnOwnTokens(from: Addr, amount: nat)
    | SetValidators(known: set<Addr>, bonded: set<Addr>, redelegating: set<Addr>)
    | SetRewardCounterparty(contract: Addr)

  /** The accounts of the two contracts act only through the messages they emit. */
  predicate External(a: Addr) {
    a != SELF && a != REWARD
  }

  function ChainStep(ch: Chain, e: Event): Chain
    requires !e.Tx?
  {
    match e
    case AdvanceTime(to) => if ch.now <= to then ch.(now := to) else ch
    case SlashDelegation(v, left) =>
      if v in ch.delegations && left <= ch.delegations[v]
      then ch.(delegations := ch.delegations[v := left]) else ch
    case SlashUnbonding(id, left) =>
      if id in ch.unbonding && left <= ch.unbonding[id] then ch.(unbonding := ch.unbonding[id := left]) else ch
    case PayOutUnbonding(id) =>
      ch.(unbonding := ch.unbonding - {id}, luna := Credit(ch.luna, SELF, Held(ch.unbonding, id)))
    case ReceiveLuna(to, amount) => ch.(luna := Credit(ch.luna, to, amount))
    case TransferLuna(from, to, amount) =>
      if External(from) && amount <= Held(ch.luna, from)
      then ch.(luna := Move(ch.luna, from, to, amount).value) else ch
    case TransferTokens(from, to, amount) =>
      if External(from) && amount <= Held(ch.tokens, from)
      then ch.(tokens := Move(ch.tokens, from, to, amount).value) else ch
    case BurnOwnTokens(from, amount) =>
      if External(from) && amount <= Held(ch.tokens, from) && amount <= ch.supply
      then ch.(tokens := Debit(ch.tokens, from, amount).value, supply := ch.supply - amount) else ch
    case SetValidators(known, bonded, redelegating) =>
      ch.(known := known, bonded := bonded, redelegating := redelegating)
    case SetRewardCounterparty(contract) => ch.(rewardStakingContract := contract)
  }

  predicate Accepted(w: World, e: Event) {
    e.Tx? && External(e.sender) && Transact(w, e.sender, e.funds, e.call).Ok?
  }

  function Step(w: World, e: Event): World {
    if e.Tx? then
      if External(e.sender) then
        match Transact(w, e.sender, e.funds, e.call)
        case Ok(w') => w'
        case Err(_) => w
      else w
    else w.(chain := ChainStep(w.chain, e))
  }

  function Run(w: World, es: seq<Event>): World
    decreases |es|
  {
    if es == [] then w else Run(Step(w, es[0]), es[1..])
  }

  /** A freshly instantiated contract: nothing delegated, nothing unbonding, no tokens minted. */
  ghost predicate Initial(w: World) {
    && (exists sender: Addr, msg: InstantiateMsg :: Instantiate(w.chain.now, sender, msg) == Ok(w.store))
    && w.chain.delegations == map[] && w.chain.unbonding == map[]
    && w.chain.tokens == map[] && w.chain.supply == 0
    && w.withdrawn == map[]
  }

  lemma {:induction false} RunAppend(w: World, a: seq<Event>, b: seq<Event>)
    ensures Run(w, a + b) == Run(Run(w, a), b)
    decreases |a|
  {
    if a == [] {
      assert a + b == b;
    } else {
      assert (a + b)[1..] == a[1..] + b;
      RunAppend(Step(w, a[0]), a[1..], b);
    }
  }
}
