/** Runs from instantiation in which the contract breaks what its comments expect of it: one in which the exchange rate
    becomes zero, and one in which reconciling is stuck. The pool of both has a single validator. */
module Witnesses {
  import opened Results
  import opened Decimals
  import opened Sums
  import opened Storage
  import opened Selection
  import opened SelectionProofs
  import opened Handlers
  import opened Messages
  import opened Machine
  import opened Effects
  import opened Ledger
  import opened LedgerSteps
  import opened Solvency
  import opened Withdrawals
  import opened PoolRuns
  import opened Rates
  import opened SlashFree
  import opened Progress
  import opened Deposits

  ghost predicate Reachable(w: World) {
    exists start: World, es: seq<Event> :: Initial(start) && w == Run(start, es)
  }

  lemma ReachableStep(w: World, e: Event)
    requires Reachable(w)
    ensures Reachable(Step(w, e))
  {
    var start: World, es: seq<Event> :| Initial(start) && w == Run(start, es);
    RunAppend(start, es, [e]);
    OneStep(w, e);
    assert Step(w, e) == Run(start, es + [e]);
  }

  lemma OneStep(w: World, e: Event)
    ensures Run(w, [e]) == Step(w, e)
  {
    hide Step;
    assert [e][1..] == [];
  }

  lemma ReachableOk(w: World)
    requires Reachable(w)
    ensures WorldOk(w) && WorldPoolOk(w)
  {
    var start: World, es: seq<Event> :| Initial(start) && w == Run(start, es);
    ReachableIsSolvent(start, es);
    ReachablePoolOk(start, es);
  }

  // ---- A contract with one validator and no fees ----

  const MANAGER: Addr := 2
  const USER: Addr := 3
  const FEES: Addr := 4
  const V: Addr := 5
  const NOW: nat := 1_000_000 * NANOS
  const TRILLION: nat := 1_000_000_000_000

  const MSG := InstantiateMsg(10, TRILLION, REWARD, FEES, 0, 0, 0, 1814400, 259200, 0)
  const CONFIG := Config(MANAGER, 10, TRILLION, REWARD, FEES, 0, 0, 0, 1814400, 259200, 0)

  /** The contract with one active validator `V`, its delegation and the supply; the metadata of `V` is far enough from
      overflowing. */
  ghost predicate Lone(w: World, delegation: nat, supply: nat, room: nat) {
    && Reachable(w)
    && LoneStore(w.store, delegation, room)
    && V in w.chain.bonded && Held(w.chain.delegations, V) == delegation
    && w.chain.supply == supply
  }

  ghost predicate LoneStore(s: Store, delegation: nat, room: nat) {
    var m := MetaOf(s.validatorMeta, V);
    && s.config == CONFIG && s.controls == NOTHING_PAUSED
    && s.state.validators == [V]
    && m.slashed + (if m.staked < delegation then delegation else m.staked) <= room < U128_LIMIT
  }

  lemma NothingPaused(s: Store, d: nat, room: nat)
    requires LoneStore(s, d, room)
    ensures s.controls == NOTHING_PAUSED && s.config == CONFIG
  {
  }

  lemma SyncOne(meta: map<Addr, VMeta>, ds: map<Addr, nat>)
    ensures DelegatedSum([V], ds) == Held(ds, V)
    ensures var m := SyncMeta(MetaOf(meta, V), Held(ds, V));
      m.slashed < U128_LIMIT ==> SyncPool(meta, [V], ds) == Ok(meta[V := m])
  {
    hide SyncMeta, MetaOf, Held;
    assert [V][..0] == [];
  }

  /** What a slashing check leaves. */
  ghost predicate CheckedLone(s: Store, t: Store, delegation: nat, rate: nat, room: nat) {
    && t == s.(validatorMeta := t.validatorMeta,
               state := s.state.(totalStaked := delegation, exchangeRate := rate))
    && LoneStore(t, delegation, room) && MetaOf(t.validatorMeta, V).staked == delegation
  }

  lemma CheckLone(s: Store, ch: Chain, rate: nat, room: nat)
    requires LoneStore(s, Held(ch.delegations, V), room)
    requires CalculateExchangeRate(Held(ch.delegations, V), ch.supply) == Ok(rate)
    ensures CheckSlashing(s, ch).Ok?
    ensures CheckedLone(s, CheckSlashing(s, ch).value, Held(ch.delegations, V), rate, room)
  {
    hide CalculateExchangeRate, SyncPool, DelegatedSum, CheckedLone, LoneStore, SyncMeta, MetaOf;
    SyncOne(s.validatorMeta, ch.delegations);
    LoneMeta(s, Held(ch.delegations, V), rate, room);
  }

  lemma LoneMeta(s: Store, d: nat, rate: nat, room: nat)
    requires LoneStore(s, d, room)
    ensures s.state.validators == [V] && d < U128_LIMIT
    ensures var m := SyncMeta(MetaOf(s.validatorMeta, V), d);
      && m.slashed < U128_LIMIT
      && CheckedLone(s, s.(validatorMeta := s.validatorMeta[V := m],
                           state := s.state.(totalStaked := d, exchangeRate := rate)), d, rate, room)
  {
  }

  // ---- Steps ----

  function Funds(amount: nat): seq<Coin> {
    [Coin(VAULT_DENOM, amount)]
  }

  lemma FundsAre(amount: nat)
    requires amount > 0
    ensures SingleVaultFund(Funds(amount)) == Ok(amount) && VaultAmount(Funds(amount)) == amount
  {
    VaultAmountOfSingle(Funds(amount));
  }

  function Minted(amount: nat, rate: nat): nat {
    if rate == 0 then 0 else amount * ONE / rate
  }

  /** A deposit of `amount` is within its bounds and does not overflow at the rate. */
  ghost predicate Depositable(rate: nat, amount: nat, room: nat) {
    && 10 <= amount <= TRILLION && room + amount < U128_LIMIT
    && rate > 0 && amount * ONE * ONE / rate < U128_LIMIT
  }

  lemma BreakdownLone(s: Store, amount: nat, room: nat)
    requires s.config == CONFIG && Depositable(s.state.exchangeRate, amount, room)
    ensures ComputeDepositBreakdown(s, amount) == Ok(DepositBreakdown(0, amount, Minted(amount, s.state.exchangeRate)))
  {
    hide ComputeDepositBreakdown;
    assert MulFloor(amount, 0) == 0;
    DepositIsPricedExactly(s, amount);
    DepositBreakdownIs(s, amount);
  }

  ghost predicate DepositedLone(r: Result<Response>, delegation: nat, amount: nat, minted: nat, room: nat) {
    && r.Ok?
    && r.value.messages == [Delegate(V, amount)] + MintMessages(USER, minted)
    && LoneStore(r.value.store, delegation + amount, room + amount)
  }

  lemma DepositLoneSynced(s: Store, ch: Chain, amount: nat, room: nat)
    requires LoneStore(s, Held(ch.delegations, V), room) && V in ch.bonded
    requires MetaOf(s.validatorMeta, V).staked == s.state.totalStaked == Held(ch.delegations, V)
    requires Depositable(s.state.exchangeRate, amount, room)
    ensures DepositedLone(DepositSynced(s, ch, USER, amount), Held(ch.delegations, V), amount,
                          Minted(amount, s.state.exchangeRate), room)
  {
    hide ValidatorForDeposit, ComputeDepositBreakdown, Minted;
    BreakdownLone(s, amount, room);
    DepositGoesToLeastDelegated([V], ch.bonded, ch.delegations);
    assert V in [V];
  }

  /** What a deposit leaves of the chain that it finds. */
  ghost predicate DepositedOn(ch: Chain, after: Chain, amount: nat, minted: nat) {
    && after == ch.(luna := after.luna, delegations := Credit(ch.delegations, V, amount),
                    tokens := after.tokens, supply := ch.supply + minted)
    && Held(after.luna, USER) == Held(ch.luna, USER)
    && Held(after.tokens, USER) == Held(ch.tokens, USER) + minted
  }

  lemma MintLoneExecutes(ch: Chain, minted: nat)
    requires ch.supply + minted < U128_LIMIT
    ensures var r := ExecuteAll(ch, MintMessages(USER, minted));
      && r.Ok? && r.value == ch.(tokens := r.value.tokens, supply := ch.supply + minted)
      && Held(r.value.tokens, USER) == Held(ch.tokens, USER) + minted
  {
    ExecuteOne(ch, MintTokens(USER, minted));
  }

  lemma DelegateLoneExecutes(ch: Chain, amount: nat)
    requires amount <= Held(ch.luna, SELF)
    ensures var r := ExecuteAll(ch, [Delegate(V, amount)]);
      && r.Ok? && r.value == ch.(luna := r.value.luna, delegations := Credit(ch.delegations, V, amount))
      && Held(r.value.luna, USER) == Held(ch.luna, USER)
  {
    ExecuteOne(ch, Delegate(V, amount));
  }

  lemma DepositLoneExecutes(ch: Chain, amount: nat, minted: nat)
    requires amount <= Held(ch.luna, SELF) && ch.supply + minted < U128_LIMIT
    ensures ExecuteAll(ch, [Delegate(V, amount)] + MintMessages(USER, minted)).Ok?
    ensures DepositedOn(ch, ExecuteAll(ch, [Delegate(V, amount)] + MintMessages(USER, minted)).value, amount, minted)
  {
    hide ExecuteAll, MintMessages, Credit, Held;
    ExecuteAppend(ch, [Delegate(V, amount)], MintMessages(USER, minted));
    DelegateLoneExecutes(ch, amount);
    MintLoneExecutes(ExecuteAll(ch, [Delegate(V, amount)]).value, minted);
  }

  lemma AttachFunds(ch: Chain, amount: nat)
    requires 0 < amount <= Held(ch.luna, USER)
    ensures var r := Attach(ch, USER, Funds(amount), CallDeposit);
      && r.Ok? && r.value == ch.(luna := r.value.luna)
      && Held(r.value.luna, SELF) == Held(ch.luna, SELF) + amount
      && Held(r.value.luna, USER) == Held(ch.luna, USER) - amount
  {
    hide Move;
    FundsAre(amount);
    MoveMoves(ch.luna, USER, SELF, amount);
  }

  lemma DepositLoneTransacts(w: World, d: nat, rate: nat, amount: nat, room: nat)
    requires LoneStore(w.store, d, room) && V in w.chain.bonded && Held(w.chain.delegations, V) == d
    requires CalculateExchangeRate(d, w.chain.supply) == Ok(rate) && Depositable(rate, amount, room)
    requires amount <= Held(w.chain.luna, USER) && w.chain.supply + Minted(amount, rate) < U128_LIMIT
    ensures var r := Transact(w, USER, Funds(amount), CallDeposit);
      && r.Ok?
      && LoneStore(r.value.store, d + amount, room + amount)
      && r.value.chain == w.chain.(luna := r.value.chain.luna, tokens := r.value.chain.tokens,
                                   delegations := Credit(w.chain.delegations, V, amount),
                                   supply := w.chain.supply + Minted(amount, rate))
      && Held(r.value.chain.luna, USER) + amount == Held(w.chain.luna, USER)
      && Held(r.value.chain.tokens, USER) == Held(w.chain.tokens, USER) + Minted(amount, rate)
  {
    hide Attach, CheckSlashing, DepositSynced, ExecuteAll, Minted, CalculateExchangeRate, Funds, SingleVaultFund;
    AttachFunds(w.chain, amount);
    FundsAre(amount);
    var before := Attach(w.chain, USER, Funds(amount), CallDeposit).value;
    CheckLone(w.store, before, rate, room);
    DepositLoneSynced(CheckSlashing(w.store, before).value, before, amount, room);
    DepositLoneExecutes(before, amount, Minted(amount, rate));
  }

  /** A deposit of `amount` at the rate that the slashing check calculates. */
  lemma DepositLone(w: World, d: nat, rate: nat, amount: nat, room: nat)
    requires Lone(w, d, w.chain.supply, room)
    requires CalculateExchangeRate(d, w.chain.supply) == Ok(rate) && Depositable(rate, amount, room)
    requires amount <= Held(w.chain.luna, USER) && w.chain.supply + Minted(amount, rate) < U128_LIMIT
    ensures var t := Step(w, Tx(USER, Funds(amount), CallDeposit));
      && Lone(t, d + amount, w.chain.supply + Minted(amount, rate), room + amount)
      && LedgerSame(w.store, t.store)
      && t.chain.now == w.chain.now
      && Held(t.chain.luna, USER) + amount == Held(w.chain.luna, USER)
      && Held(t.chain.tokens, USER) == Held(w.chain.tokens, USER) + Minted(amount, rate)
  {
    hide Transact, Minted, CalculateExchangeRate, Funds, Reachable, LoneStore;
    var e := Tx(USER, Funds(amount), CallDeposit);
    DepositLoneTransacts(w, d, rate, amount, room);
    ReachableStep(w, e);
    DepositKeepsLedger(w, USER, Funds(amount));
  }

  lemma DepositKeepsLedger(w: World, sender: Addr, funds: seq<Coin>)
    requires Transact(w, sender, funds, CallDeposit).Ok?
    ensures LedgerSame(w.store, Transact(w, sender, funds, CallDeposit).value.store)
  {
    hide Attach, Dispatch, ExecuteAll;
    OtherCallsKeepLedger(w.store, Attach(w.chain, sender, funds, CallDeposit).value, sender, funds, CallDeposit);
  }

  /** The delegation is slashed to `left`. */
  lemma SlashLone(w: World, d: nat, room: nat, left: nat)
    requires Lone(w, d, w.chain.supply, room) && 0 < left <= d
    ensures var t := Step(w, SlashDelegation(V, left));
      && Lone(t, left, w.chain.supply, room) && t.store == w.store
      && t.chain == w.chain.(delegations := t.chain.delegations)
  {
    hide Reachable;
    ReachableStep(w, SlashDelegation(V, left));
  }

  lemma RedeemLone(w: World, d: nat, rate: nat, room: nat)
    requires Lone(w, d, w.chain.supply, room) && CalculateExchangeRate(d, w.chain.supply) == Ok(rate)
    ensures var t := Step(w, Tx(USER, [], CallRedeemRewards));
      && Lone(t, d, w.chain.supply, room) && t.store.state.exchangeRate == rate
  {
    hide Reachable, Attach, CheckSlashing, CalculateExchangeRate;
    var e := Tx(USER, [], CallRedeemRewards);
    AttachNothing(w.chain, USER, CallRedeemRewards);
    var before := Attach(w.chain, USER, [], CallRedeemRewards).value;
    CheckLone(w.store, before, rate, room);
    ReachableStep(w, e);
  }

  // ---- The start ----

  const START_CHAIN := Chain(NOW, {}, {}, {}, map[], map[USER := 2 * TRILLION], map[], 0, map[], SELF)

  function Start(): World {
    World(Instantiate(NOW, MANAGER, MSG).GetOr(EMPTY), START_CHAIN, map[])
  }

  const EMPTY := Store(CONFIG, NOTHING_PAUSED, State(0, 0, 0, 0, 0, 0, [], 0), map[], map[], map[])

  /** The contract with its first validator, before any deposit. */
  lemma FirstValidator() returns (w: World)
    ensures Lone(w, 0, 0, 0) && w.chain.supply == 0 && w.chain.now == NOW
    ensures Held(w.chain.luna, USER) == 2 * TRILLION && Held(w.chain.tokens, USER) == 0
    ensures w.store.state.currentUndelegationBatchId == 1 && w.store.state.lastReconciledBatchId == 0
    ensures w.store.batches == map[1 := NewBatch(NOW, ONE)] && w.store.users == map[]
  {
    hide Instantiate, Initial, Transact, Start;
    var start := Start();
    StartIs();
    assert start == Run(start, []);
    var w1 := Step(start, SetValidators({V}, {V}, {}));
    ReachableStep(start, SetValidators({V}, {V}, {}));
    w := Step(w1, Tx(MANAGER, [], CallAddValidator(V)));
    ReachableStep(w1, Tx(MANAGER, [], CallAddValidator(V)));
    AddLone(w1);
  }

  lemma StartIs()
    ensures Initial(Start()) && Start().chain == START_CHAIN
    ensures var s := Start().store;
      && s.config == CONFIG && s.controls == NOTHING_PAUSED && s.validatorMeta == map[] && s.users == map[]
      && s.state.validators == [] && s.state.currentUndelegationBatchId == 1 && s.state.lastReconciledBatchId == 0
      && s.batches == map[1 := NewBatch(NOW, ONE)]
  {
  }

  lemma AddLone(w: World)
    requires w.chain == START_CHAIN.(known := {V}, bonded := {V}) && w.store == Start().store
    ensures var t := Step(w, Tx(MANAGER, [], CallAddValidator(V)));
      && t.store == w.store.(state := w.store.state.(validators := [V]), validatorMeta := map[V := NEW_VMETA])
      && t.chain == w.chain.(luna := t.chain.luna) && forall a :: Held(t.chain.luna, a) == Held(w.chain.luna, a)
  {
    hide Attach, Start;
    StartIs();
    AttachNothing(w.chain, MANAGER, CallAddValidator(V));
    assert [] + [V] == [V];
  }

  // ---- A rate of zero ----

  lemma RateArithmetic()
    ensures CalculateExchangeRate(0, 0) == Ok(ONE)
    ensures Depositable(ONE, TRILLION, 0) && Minted(TRILLION, ONE) == TRILLION
    ensures CalculateExchangeRate(1, TRILLION) == Ok(1_000_000)
    ensures Depositable(1_000_000, 100_000_000, TRILLION)
    ensures Minted(100_000_000, 1_000_000) == 100 * ONE
    ensures CalculateExchangeRate(1, TRILLION + 100 * ONE) == Ok(0)
  {
  }

  /** The rate does become zero: deposit 10^12 units, slash the delegation to one unit, deposit 10^8 units at the rate
      of 10^-12, slash to one unit again. The next slashing check stores a rate of zero, and no deposit goes through any
      more. */
  lemma ZeroRateIsReachable() returns (w: World)
    ensures Reachable(w) && w.store.state.exchangeRate == 0
    ensures forall sender: Addr, funds: seq<Coin> :: Transact(w, sender, funds, CallDeposit).Err?
  {
    hide Step, Transact, Reachable, LoneStore, Depositable, Minted, CalculateExchangeRate, Funds;
    RateArithmetic();
    var w0 := FirstValidator();
    DepositLone(w0, 0, ONE, TRILLION, 0);
    var w1 := Step(w0, Tx(USER, Funds(TRILLION), CallDeposit));
    SlashLone(w1, TRILLION, TRILLION, 1);
    var w2 := Step(w1, SlashDelegation(V, 1));
    DepositLone(w2, 1, 1_000_000, 100_000_000, TRILLION);
    var w3 := Step(w2, Tx(USER, Funds(100_000_000), CallDeposit));
    SlashLone(w3, 100_000_001, TRILLION + 100_000_000, 1);
    var w4 := Step(w3, SlashDelegation(V, 1));
    RedeemLone(w4, 1, 0, TRILLION + 100_000_000);
    w := Step(w4, Tx(USER, [], CallRedeemRewards));
    forall sender: Addr, funds: seq<Coin> ensures Transact(w, sender, funds, CallDeposit).Err? {
      LoneDelegates(w, 1, TRILLION + 100_000_000);
      ZeroRateStopsDeposits(w, sender, funds);
    }
  }

  lemma LoneDelegates(w: World, d: nat, room: nat)
    requires Lone(w, d, w.chain.supply, room)
    ensures DelegatedSum(w.store.state.validators, w.chain.delegations) == d
  {
    SyncOne(map[], w.chain.delegations);
  }

  // ---- A stuck page ----

  const HALF: nat := 500_000_000_000
  const RELEASE: nat := NOW + 1814400 * NANOS

  /** The current batch has no tokens yet, no record is in it, and the `closed` ones before it have no stake. */
  ghost predicate StuckLedger(s: Store, closed: nat) {
    && s.state.currentUndelegationBatchId == closed + 1 && s.state.lastReconciledBatchId == 0
    && BatchAt(s.batches, closed + 1).undelegatedTokens == 0
    && (forall k | k in s.users :: k.1 <= closed)
    && (forall id | 1 <= id <= closed ::
          BatchAt(s.batches, id).undelegatedStake == 0 && BatchAt(s.batches, id).estReleaseTime == Some(RELEASE))
  }

  /** Half of the stake was slashed; `closed` tokens have been undelegated, one at a time. */
  ghost predicate Stuck(w: World, closed: nat) {
    && closed <= 10
    && Lone(w, HALF, TRILLION - closed, TRILLION)
    && StuckLedger(w.store, closed)
    && w.chain.now == NOW
    && Held(w.chain.tokens, USER) == TRILLION - closed
  }

  lemma RateBelowOne(stake: nat, supply: nat)
    requires 0 < stake < supply && stake * ONE < U128_LIMIT
    ensures var r := CalculateExchangeRate(stake, supply); r.Ok? && r.value < ONE && MulFloor(1, r.value) == 0
  {
    var rate := stake * ONE / supply;
    FloorBounds(stake * ONE, supply);
    if rate >= ONE {
      MulMonotone(supply, supply, ONE, rate);
      assert false;
    }
    MulMonotone(1, supply, rate, rate);
  }

  /** The rate that the next slashing check calculates. */
  function StuckRate(closed: nat): nat {
    CalculateExchangeRate(HALF, SaturatingSub(TRILLION, closed)).GetOr(0)
  }

  lemma StuckRateIs(closed: nat)
    requires closed <= 10
    ensures CalculateExchangeRate(HALF, TRILLION - closed) == Ok(StuckRate(closed))
    ensures MulFloor(1, StuckRate(closed)) == 0 && StuckRate(closed) < ONE
  {
    hide CalculateExchangeRate, MulFloor;
    RateBelowOne(HALF, TRILLION - closed);
  }

  lemma AttachToken(ch: Chain)
    requires 1 <= Held(ch.tokens, USER)
    ensures var r := Attach(ch, USER, [], CallQueueUndelegation(1));
      && r.Ok? && r.value == ch.(luna := r.value.luna, tokens := r.value.tokens)
      && Held(r.value.tokens, USER) == Held(ch.tokens, USER) - 1
  {
    hide Move;
    MoveMoves(ch.luna, USER, SELF, 0);
    MoveMoves(ch.tokens, USER, SELF, 1);
  }

  lemma QueueOneSynced(s: Store, closed: nat, room: nat)
    requires StuckLedger(s, closed) && LoneStore(s, HALF, room) && closed + 1 in s.batches
    ensures var r := QueueSynced(s, USER, 1);
      r.Ok? && r.value.messages == [] && LoneStore(r.value.store, HALF, room)
  {
    assert (USER, closed + 1) !in s.users;
  }

  lemma QueueOneTransacts(w: World, closed: nat)
    requires Stuck(w, closed) && closed < 10
    ensures var r := Transact(w, USER, [], CallQueueUndelegation(1));
      && r.Ok?
      && LoneStore(r.value.store, HALF, TRILLION)
      && Queued(w.store, r.value.store, USER, 1, StuckRate(closed))
      && r.value.chain == w.chain.(luna := r.value.chain.luna, tokens := r.value.chain.tokens)
      && Held(r.value.chain.tokens, USER) == TRILLION - closed - 1
  {
    hide Attach, CheckSlashing, QueueSynced, CalculateExchangeRate, LoneStore, Queued, Reachable, StuckRate, MulFloor;
    StuckRateIs(closed);
    AttachToken(w.chain);
    var before := Attach(w.chain, USER, [], CallQueueUndelegation(1)).value;
    CheckLone(w.store, before, StuckRate(closed), TRILLION);
    OpenBatchStored(w);
    NothingPaused(w.store, HALF, TRILLION);
    QueueOneSynced(CheckSlashing(w.store, before).value, closed, TRILLION);
    QueueEffect(w.store, before, USER, 1);
  }

  lemma OpenBatchStored(w: World)
    requires Reachable(w)
    ensures w.store.state.currentUndelegationBatchId in w.store.batches
  {
    hide TokensAddUp, OutstandingClaims, RecordsInOrder, ChainOk, BatchInOrder, Reachable;
    ReachableOk(w);
  }

  lemma QueueOneSteps(w: World, closed: nat)
    requires Stuck(w, closed) && closed < 10
    ensures var t := Step(w, Tx(USER, [], CallQueueUndelegation(1)));
      && Lone(t, HALF, TRILLION - closed, TRILLION)
      && Queued(w.store, t.store, USER, 1, StuckRate(closed))
      && t.chain.now == NOW
      && Held(t.chain.tokens, USER) == TRILLION - closed - 1
  {
    hide Transact, LoneStore, Queued, Reachable, StuckRate;
    QueueOneTransacts(w, closed);
    ReachableStep(w, Tx(USER, [], CallQueueUndelegation(1)));
  }

  lemma NothingToUndelegate(ch: Chain)
    requires V in ch.bonded
    ensures PlanUndelegation([V], ch, 0) == Ok([])
  {
    hide SortTuples;
    assert [V][..0] == [];
    assert Active([V], ch.bonded) == [V];
  }

  ghost predicate ClosesOne(r: Result<Response>, room: nat) {
    && r.Ok?
    && r.value.messages == [BurnTokens(1)]
    && LoneStore(r.value.store, HALF, room)
  }

  lemma UndelegateOneSynced(s: Store, ch: Chain, room: nat)
    requires LoneStore(s, HALF, room) && V in ch.bonded
    requires s.state.currentUndelegationBatchId in s.batches
    requires s.batches[s.state.currentUndelegationBatchId].undelegatedTokens == 1
    requires MulFloor(1, s.state.exchangeRate) == 0 && s.state.exchangeRate < ONE
    ensures ClosesOne(UndelegateSynced(s, ch, MANAGER), room)
  {
    hide PlanUndelegation, MulFloor;
    NothingToUndelegate(ch);
    assert [] + [BurnTokens(1)] == [BurnTokens(1)];
  }

  /** The handler burns the token and undelegates nothing. */
  lemma UndelegateOneTransacts(w: World, closed: nat)
    requires closed < 10 && Lone(w, HALF, TRILLION - closed, TRILLION)
    requires BatchAt(w.store.batches, w.store.state.currentUndelegationBatchId).undelegatedTokens == 1
    ensures var r := Transact(w, MANAGER, [], CallUndelegate);
      && r.Ok?
      && LoneStore(r.value.store, HALF, TRILLION)
      && Undelegated(w.store, r.value.store, w.chain.now, w.chain.now + 1814400 * NANOS, StuckRate(closed))
      && r.value.chain == w.chain.(luna := r.value.chain.luna, tokens := r.value.chain.tokens,
                                   supply := TRILLION - closed - 1)
      && Held(r.value.chain.tokens, USER) == Held(w.chain.tokens, USER)
  {
    hide Attach, CheckSlashing, UndelegateSynced, CalculateExchangeRate, LoneStore, Undelegated, Reachable, StuckRate,
      MulFloor;
    StuckRateIs(closed);
    AttachNothing(w.chain, MANAGER, CallUndelegate);
    var before := Attach(w.chain, MANAGER, [], CallUndelegate).value;
    CheckLone(w.store, before, StuckRate(closed), TRILLION);
    OpenBatchStored(w);
    NothingPaused(w.store, HALF, TRILLION);
    UndelegateOneSynced(CheckSlashing(w.store, before).value, before, TRILLION);
    UndelegateEffect(w.store, before, MANAGER);
    OpenTokenHeld(w);
    ExecuteOne(before, BurnTokens(1));
  }

  lemma OpenTokenHeld(w: World)
    requires Reachable(w)
    ensures OpenBatch(w.store).undelegatedTokens <= Held(w.chain.tokens, SELF)
  {
    hide LedgerOk, Reachable, OpenBatch;
    ReachableOk(w);
  }

  lemma UndelegateOneSteps(w: World, closed: nat)
    requires closed < 10 && Lone(w, HALF, TRILLION - closed, TRILLION) && w.chain.now == NOW
    requires BatchAt(w.store.batches, w.store.state.currentUndelegationBatchId).undelegatedTokens == 1
    ensures var t := Step(w, Tx(MANAGER, [], CallUndelegate));
      && Lone(t, HALF, TRILLION - closed - 1, TRILLION)
      && Undelegated(w.store, t.store, NOW, RELEASE, StuckRate(closed))
      && t.chain.now == NOW
      && Held(t.chain.tokens, USER) == Held(w.chain.tokens, USER)
  {
    hide Transact, LoneStore, Undelegated, Reachable, StuckRate;
    UndelegateOneTransacts(w, closed);
    ReachableStep(w, Tx(MANAGER, [], CallUndelegate));
  }

  lemma OneMoreClosed(s: Store, t: Store, u: Store, closed: nat, rate: nat)
    requires StuckLedger(s, closed) && Queued(s, t, USER, 1, rate)
    ensures BatchAt(t.batches, t.state.currentUndelegationBatchId).undelegatedTokens == 1
    ensures Undelegated(t, u, NOW, RELEASE, rate) && MulFloor(1, rate) == 0 ==> StuckLedger(u, closed + 1)
  {
    hide MulFloor;
    var cur := closed + 1;
    if Undelegated(t, u, NOW, RELEASE, rate) && MulFloor(1, rate) == 0 {
      assert t.batches[cur].undelegatedTokens == 1;
      assert u.batches[cur].undelegatedStake == 0 && u.batches[cur].estReleaseTime == Some(RELEASE);
      forall id | 1 <= id <= cur
        ensures BatchAt(u.batches, id).undelegatedStake == 0 && BatchAt(u.batches, id).estReleaseTime == Some(RELEASE)
      {
        assert id < cur ==> BatchAt(u.batches, id) == BatchAt(s.batches, id);
      }
    }
  }

  /** One token is queued and undelegated: its batch closes without stake. */
  lemma OneRound(w: World, closed: nat) returns (t: World)
    requires Stuck(w, closed) && closed < 10
    ensures Stuck(t, closed + 1)
  {
    hide Step, Lone, Queued, Undelegated, StuckLedger, StuckRate, MulFloor;
    StuckRateIs(closed);
    QueueOneSteps(w, closed);
    var w1 := Step(w, Tx(USER, [], CallQueueUndelegation(1)));
    t := Step(w1, Tx(MANAGER, [], CallUndelegate));
    OneMoreClosed(w.store, w1.store, t.store, closed, StuckRate(closed));
    UndelegateOneSteps(w1, closed);
  }

  lemma {:induction false} TenRounds(w: World, closed: nat) returns (t: World)
    requires Stuck(w, closed)
    ensures Stuck(t, 10)
    decreases 10 - closed
  {
    if closed == 10 {
      t := w;
    } else {
      t := OneRound(w, closed);
      t := TenRounds(t, closed + 1);
    }
  }

  lemma HalfSlashed() returns (w: World)
    ensures Stuck(w, 0)
  {
    hide Step, Transact, Reachable, LoneStore, Depositable, Minted, CalculateExchangeRate, Funds;
    RateArithmetic();
    var w0 := FirstValidator();
    DepositLone(w0, 0, ONE, TRILLION, 0);
    var w1 := Step(w0, Tx(USER, Funds(TRILLION), CallDeposit));
    SlashLone(w1, TRILLION, TRILLION, HALF);
    w := Step(w1, SlashDelegation(V, HALF));
  }

  lemma StuckWindow(s: Store, withdrawn: map<BatchId, nat>)
    requires LedgerOk(s, withdrawn) && StuckLedger(s, 10)
    ensures PageWithoutStake(s, 0) && WindowEnd(s, RELEASE) == Ok(10)
    ensures ExpectedStake(s.batches, 0, 10) == 0
  {
    hide TokensAddUp, OutstandingClaims, RecordsInOrder, BatchInOrder, ExpectedStake;
    ReleasedRunExists(s, 0, 11, RELEASE);
    ReleasedRun(s.batches, 0, 11, RELEASE);
    ExpectedStakePositive(s.batches, 0, 10);
    var end := ReleasedUpTo(s.batches, 0, 11, RELEASE).value;
    assert end < 10 ==> BatchAt(s.batches, end + 1).estReleaseTime == Some(RELEASE);
  }

  lemma StuckReconciles(w: World)
    requires w.store.controls == NOTHING_PAUSED && w.store.state.lastReconciledBatchId == 0
    requires WindowEnd(w.store, w.chain.now) == Ok(10) && ExpectedStake(w.store.batches, 0, 10) == 0
    ensures Accepted(w, Tx(USER, [], CallReconcileFunds))
    ensures Step(w, Tx(USER, [], CallReconcileFunds)).store == w.store
  {
    hide Attach, ExpectedStake, ReleasedUpTo;
    AttachNothing(w.chain, USER, CallReconcileFunds);
  }

  /** Reconciling does get stuck: after half of the stake is slashed, ten tokens are undelegated one at a time, each in
      a batch without stake. Once they are released a reconciliation is accepted but changes nothing, and no run from
      there ever reconciles a batch. */
  lemma StuckPageIsReachable() returns (w: World)
    ensures Reachable(w)
    ensures WindowEnd(w.store, w.chain.now) == Ok(10)
    ensures Accepted(w, Tx(USER, [], CallReconcileFunds)) && Step(w, Tx(USER, [], CallReconcileFunds)).store == w.store
    ensures forall es: seq<Event> :: Run(w, es).store.state.lastReconciledBatchId == 0
  {
    hide Transact, Reachable, LoneStore, Accepted, WindowEnd, Run, LedgerOk, ConfigOk, ChainOk, ExpectedStake;
    var w0 := HalfSlashed();
    var w1 := TenRounds(w0, 0);
    w := Step(w1, AdvanceTime(RELEASE));
    ReachableStep(w1, AdvanceTime(RELEASE));
    ReachableOk(w);
    StuckWindow(w.store, w.withdrawn);
    NothingPaused(w.store, HALF, TRILLION);
    StuckReconciles(w);
    forall es: seq<Event> ensures Run(w, es).store.state.lastReconciledBatchId == 0 {
      PageWithoutStakeBlocks(w, es, 0);
    }
  }
}
