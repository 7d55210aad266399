/** Undelegating a batch: exactly when it commits, from whom the stake is taken, and the whole of what it leaves behind. */
module Undelegations {
  import opened Results
  import opened Decimals
  import opened Sums
  import opened Storage
  import opened Selection
  import opened SelectionProofs
  import opened Handlers
  import opened Messages
  import opened Machine
  import opened Ledger
  import opened Solvency
  import opened PoolRuns
  import opened SlashFree
  import opened SlashingCheck
  import opened Deposits

  // ---- From whom the stake is taken ----

  type Undelegation = (Addr, nat)

  predicate Among(us: seq<Undelegation>, v: Addr) {
    exists i | 0 <= i < |us| :: us[i].0 == v
  }

  function Weight(ds: map<Addr, nat>, v: Addr): StakeTuple {
    (Held(ds, v), v)
  }

  /** `us` takes `stake` from the active members with the largest delegations, each drained before the next: distinct
      members, positive amounts within their delegations, largest first, and nobody left out holds more. Equal
      delegations are ordered by address. */
  ghost predicate LargestFirst(us: seq<Undelegation>, pool: seq<Addr>, bonded: set<Addr>, ds: map<Addr, nat>, stake: nat) {
    && PlanSum(us) == stake
    && (forall i | 0 <= i < |us| :: ActiveMember(pool, bonded, us[i].0) && 0 < us[i].1 <= Held(ds, us[i].0))
    && (forall i | 0 <= i < |us| - 1 :: us[i].1 == Held(ds, us[i].0))
    && (forall i, j | 0 <= i < j < |us| ::
          us[i].0 != us[j].0 && Before(Weight(ds, us[j].0), Weight(ds, us[i].0)))
    && (forall u, i | ActiveMember(pool, bonded, u) && !Among(us, u) && 0 <= i < |us| ::
          Before(Weight(ds, u), Weight(ds, us[i].0)))
  }

  /** No smaller set of active members holds the stake. */
  ghost predicate Fewest(us: seq<Undelegation>, pool: seq<Addr>, bonded: set<Addr>, ds: map<Addr, nat>, stake: nat) {
    forall vs: set<Addr> | stake <= StakeHeldBy(pool, vs * bonded, ds) :: |us| <= |vs|
  }

  lemma {:induction false} ActiveStake(pool: seq<Addr>, bonded: set<Addr>, vs: set<Addr>, ds: map<Addr, nat>)
    ensures StakeHeldBy(Active(pool, bonded), vs, ds) == StakeHeldBy(pool, vs * bonded, ds)
    ensures DelegatedSum(Active(pool, bonded), ds) == StakeHeldBy(pool, bonded, ds)
  {
    if pool != [] {
      var front, last := pool[..|pool| - 1], pool[|pool| - 1];
      ActiveStake(front, bonded, vs, ds);
      var rest := Active(front, bonded);
      assert (rest + [last])[..|rest|] == rest;
    }
  }

  lemma TakenFromLargest(s: seq<StakeTuple>, active: seq<Addr>, ds: map<Addr, nat>, us: seq<Undelegation>)
    requires Sorted(s) && TuplesOf(s, active, ds) && DistinctAddresses(s) && |us| <= |s|
    requires forall i | 0 <= i < |us| :: us[i].0 == s[|s| - 1 - i].1
    ensures forall i, j | 0 <= i < j < |us| :: us[i].0 != us[j].0 && Before(Weight(ds, us[j].0), Weight(ds, us[i].0))
    ensures forall u, i | u in active && !Among(us, u) && 0 <= i < |us| :: Before(Weight(ds, u), Weight(ds, us[i].0))
  {
    assert forall i | 0 <= i < |us| :: Weight(ds, us[i].0) == s[|s| - 1 - i];
    forall u, i | u in active && 0 <= i < |us| ensures Among(us, u) || Before(Weight(ds, u), Weight(ds, us[i].0)) {
      assert (Held(ds, u), u) in s;
      var j :| 0 <= j < |s| && s[j] == (Held(ds, u), u);
      assert j >= |s| - |us| ==> us[|s| - 1 - j].0 == u;
    }
  }

  lemma TuplesExist(pool: seq<Addr>, bonded: set<Addr>, ds: map<Addr, nat>)
    ensures var r := ActiveValidatorsSortedByStake(pool, bonded, ds);
      && (r.Ok? <==> exists v :: ActiveMember(pool, bonded, v))
      && (r.Ok? ==> r.value == SortTuples(StakeTuples(Active(pool, bonded), ds)))
  {
    hide SortTuples, StakeTuples, Active;
    ActiveMembers(pool, bonded);
    if Active(pool, bonded) != [] {
      assert ActiveMember(pool, bonded, Active(pool, bonded)[0]);
    }
    forall v | ActiveMember(pool, bonded, v) ensures v in Active(pool, bonded) {
    }
  }

  lemma PlanLargestFirst(pool: seq<Addr>, bonded: set<Addr>, ds: map<Addr, nat>, stake: nat)
    requires NoDuplicates(pool) && ActiveValidatorsSortedByStake(pool, bonded, ds).Ok?
    ensures var s := ActiveValidatorsSortedByStake(pool, bonded, ds).value; var plan := GreedyPlan(s, |s|, stake);
      && (plan.left == 0 <==> stake <= StakeHeldBy(pool, bonded, ds))
      && (plan.left == 0 ==> LargestFirst(plan.taken, pool, bonded, ds, stake))
  {
    hide SortTuples, StakeTuples, Active, GreedyPlan, Sorted, TuplesOf, DistinctAddresses, NoDuplicates, Before, Weight,
      PlanSum, StakeHeldBy, DelegatedSum;
    var active := Active(pool, bonded);
    TuplesExist(pool, bonded, ds);
    var s := ActiveValidatorsSortedByStake(pool, bonded, ds).value;
    ActiveMembers(pool, bonded);
    SortedActiveTuples(active, ds);
    ActiveStake(pool, bonded, {}, ds);
    GreedyIsExact(pool, bonded, ds, stake);
    GreedyPlanTakes(s, |s|, stake);
    TakenFromLargest(s, active, ds, GreedyPlan(s, |s|, stake).taken);
  }

  lemma PlanFewest(pool: seq<Addr>, bonded: set<Addr>, ds: map<Addr, nat>, stake: nat)
    requires NoDuplicates(pool) && ActiveValidatorsSortedByStake(pool, bonded, ds).Ok?
    ensures var s := ActiveValidatorsSortedByStake(pool, bonded, ds).value;
      Fewest(GreedyPlan(s, |s|, stake).taken, pool, bonded, ds, stake)
  {
    hide ActiveValidatorsSortedByStake, GreedyPlan, StakeHeldBy, NoDuplicates, Active;
    var s := ActiveValidatorsSortedByStake(pool, bonded, ds).value;
    forall vs: set<Addr> | stake <= StakeHeldBy(pool, vs * bonded, ds)
      ensures |GreedyPlan(s, |s|, stake).taken| <= |vs|
    {
      ActiveStake(pool, bonded, vs, ds);
      GreedyIsMinimal(pool, bonded, ds, stake, vs);
    }
  }

  lemma PlanExactly(pool: seq<Addr>, ch: Chain, stake: nat)
    requires NoDuplicates(pool)
    ensures var r := PlanUndelegation(pool, ch, stake);
      && (r.Ok? <==> && (exists v :: ActiveMember(pool, ch.bonded, v))
                     && stake <= StakeHeldBy(pool, ch.bonded, ch.delegations))
      && (r.Ok? ==> && LargestFirst(r.value, pool, ch.bonded, ch.delegations, stake)
                    && Fewest(r.value, pool, ch.bonded, ch.delegations, stake))
  {
    hide ActiveValidatorsSortedByStake, GreedyPlan, NoDuplicates, LargestFirst, Fewest, ActiveMember, StakeHeldBy;
    TuplesExist(pool, ch.bonded, ch.delegations);
    if ActiveValidatorsSortedByStake(pool, ch.bonded, ch.delegations).Ok? {
      PlanLargestFirst(pool, ch.bonded, ch.delegations, stake);
      PlanFewest(pool, ch.bonded, ch.delegations, stake);
    }
  }

  // ---- What the undelegations do ----

  ghost predicate Executable(us: seq<Undelegation>, ds: map<Addr, nat>) {
    && (forall i | 0 <= i < |us| :: us[i].1 <= Held(ds, us[i].0))
    && (forall i, j | 0 <= i < j < |us| :: us[i].0 != us[j].0)
  }

  lemma ExecutableRest(us: seq<Undelegation>, ds: map<Addr, nat>)
    requires us != [] && Executable(us, ds)
    ensures Debit(ds, us[0].0, us[0].1).Ok?
    ensures Executable(us[1..], Debit(ds, us[0].0, us[0].1).value)
  {
  }

  /** Each undelegation of `us` has left its validator, and no other delegation has changed. */
  ghost predicate TakenFrom(ds: map<Addr, nat>, after: map<Addr, nat>, us: seq<Undelegation>) {
    && (forall i | 0 <= i < |us| :: Held(after, us[i].0) + us[i].1 == Held(ds, us[i].0))
    && (forall v | !Among(us, v) :: Held(after, v) == Held(ds, v))
  }

  lemma SyncedDecreases(m: map<Addr, VMeta>, m1: map<Addr, VMeta>, pool: seq<Addr>, ds: map<Addr, nat>,
                        now: map<Addr, nat>, v: Addr, amount: nat)
    requires SyncedTo(m, m1, pool, ds, now) && v in pool && amount <= Held(now, v)
    ensures SyncedTo(m, DecreaseTrackedStake(m1, v, amount), pool, ds, Debit(now, v, amount).value)
  {
    hide SlashedBy;
  }

  lemma TakenFromRest(ds: map<Addr, nat>, after: map<Addr, nat>, us: seq<Undelegation>)
    requires us != [] && Executable(us, ds) && TakenFrom(Debit(ds, us[0].0, us[0].1).value, after, us[1..])
    ensures TakenFrom(ds, after, us)
  {
    var mid := Debit(ds, us[0].0, us[0].1).value;
    assert us == [us[0]] + us[1..];
    forall i | 0 <= i < |us| ensures Held(after, us[i].0) + us[i].1 == Held(ds, us[i].0) {
      if i > 0 {
        assert us[i] == us[1..][i - 1];
      } else {
        assert !Among(us[1..], us[0].0);
      }
    }
    forall v | !Among(us, v) ensures Held(after, v) == Held(ds, v) {
      assert us[0].0 != v;
      assert forall i | 0 <= i < |us[1..]| :: us[1..][i].0 == us[i + 1].0;
      assert !Among(us[1..], v);
    }
  }

  lemma {:induction false} UndelegationsExactly(m: map<Addr, VMeta>, meta: map<Addr, VMeta>, pool: seq<Addr>,
                                                ds: map<Addr, nat>, ch: Chain, us: seq<Undelegation>, id: BatchId)
    requires Executable(us, ch.delegations) && SyncedTo(m, meta, pool, ds, ch.delegations)
    requires forall i | 0 <= i < |us| :: us[i].0 in pool
    ensures var r := ExecuteAll(ch, UndelegateMessages(us, id));
      && r.Ok?
      && r.value == ch.(delegations := r.value.delegations, unbonding := r.value.unbonding)
      && TakenFrom(ch.delegations, r.value.delegations, us)
      && SyncedTo(m, DecreaseTrackedStakes(meta, us), pool, ds, r.value.delegations)
      && forall b :: Held(r.value.unbonding, b) == Held(ch.unbonding, b) + if b == id then PlanSum(us) else 0
    decreases |us|
  {
    hide Executable, SyncedTo, Debit, DecreaseTrackedStake, TakenFrom;
    if us == [] {
      NothingTaken(ch.delegations, us);
    } else {
      var (v, amount) := us[0];
      var msg := UndelegateStake(v, amount, id);
      assert UndelegateMessages(us, id)[1..] == UndelegateMessages(us[1..], id);
      ExecutableRest(us, ch.delegations);
      DebitWithin(ch.delegations, v, amount);
      SyncedDecreases(m, meta, pool, ds, ch.delegations, v, amount);
      UndelegationsExactly(m, DecreaseTrackedStake(meta, v, amount), pool, ds, Execute(ch, msg).value, us[1..], id);
      TakenFromRest(ch.delegations, ExecuteAll(ch, UndelegateMessages(us, id)).value.delegations, us);
    }
  }

  lemma DebitWithin(ds: map<Addr, nat>, v: Addr, amount: nat)
    requires Debit(ds, v, amount).Ok?
    ensures amount <= Held(ds, v)
  {
  }

  lemma NothingTaken(ds: map<Addr, nat>, us: seq<Undelegation>)
    requires us == []
    ensures TakenFrom(ds, ds, us)
  {
  }

  // ---- The handler ----

  /** The manager may undelegate at any time, everybody else once the cooldown is over. */
  predicate MayUndelegate(s: Store, sender: Addr, now: nat) {
    sender == s.config.manager || s.state.lastUndelegationTime + s.config.undelegationCooldown * NANOS <= now
  }

  /** What the tokens of the open batch are worth at `rate`. */
  function BatchStake(s: Store, rate: nat): nat {
    OpenBatch(s).undelegatedTokens * rate / ONE
  }

  /** The open batch has tokens, and the active members hold what they are worth. */
  ghost predicate Undelegatable(s: Store, ch: Chain, rate: nat) {
    && OpenBatch(s).undelegatedTokens > 0 && OpenBatch(s).undelegatedTokens * rate < U128_LIMIT
    && (exists v :: ActiveMember(s.state.validators, ch.bonded, v))
    && BatchStake(s, rate) <= StakeHeldBy(s.state.validators, ch.bonded, ch.delegations)
  }

  /** The batches after the open one is closed at `rate` and the next one is opened. */
  function ClosedBatches(s: Store, now: nat, rate: nat): map<BatchId, Batch> {
    var id := s.state.currentUndelegationBatchId;
    s.batches[id := OpenBatch(s).(estReleaseTime := Some(now + s.config.unbondingPeriod * NANOS),
                                  undelegationEr := rate, undelegatedStake := BatchStake(s, rate))]
             [id + 1 := Batch(0, now, None, false, rate, 0, ONE)]
  }

  ghost predicate UndelegateResponse(s: Store, ch: Chain, r: Response, us: seq<Undelegation>) {
    var rate := s.state.exchangeRate; var id := s.state.currentUndelegationBatchId; var stake := BatchStake(s, rate);
    && LargestFirst(us, s.state.validators, ch.bonded, ch.delegations, stake)
    && Fewest(us, s.state.validators, ch.bonded, ch.delegations, stake)
    && r.store == s.(state := s.state.(totalStaked := SaturatingSub(s.state.totalStaked, stake),
                                       lastUndelegationTime := ch.now, currentUndelegationBatchId := id + 1),
                     batches := ClosedBatches(s, ch.now, rate),
                     validatorMeta := DecreaseTrackedStakes(s.validatorMeta, us))
    && r.messages == UndelegateMessages(us, id) + [BurnTokens(OpenBatch(s).undelegatedTokens)]
  }

  lemma UndelegateSyncedExactly(s: Store, ch: Chain, sender: Addr) returns (us: seq<Undelegation>)
    requires s.state.currentUndelegationBatchId in s.batches && NoDuplicates(s.state.validators)
    ensures UndelegateSynced(s, ch, sender).Ok?
      <==> MayUndelegate(s, sender, ch.now) && Undelegatable(s, ch, s.state.exchangeRate)
    ensures UndelegateSynced(s, ch, sender).Ok?
      ==> UndelegateResponse(s, ch, UndelegateSynced(s, ch, sender).value, us)
  {
    hide PlanUndelegation, LargestFirst, Fewest, StakeHeldBy, ActiveMember, DecreaseTrackedStakes, UndelegateMessages,
      NoDuplicates;
    var stake := BatchStake(s, s.state.exchangeRate);
    us := PlanUndelegation(s.state.validators, ch, stake).GetOr([]);
    PlanExactly(s.state.validators, ch, stake);
  }

  // ---- The transaction ----

  /** The messages of an undelegation: one for each of `us`, and the burning of the tokens. */
  ghost predicate Emits(ms: seq<Message>, us: seq<Undelegation>, id: BatchId, tokens: nat) {
    && |ms| == |us| + 1
    && (forall i | 0 <= i < |us| :: ms[i] == UndelegateStake(us[i].0, us[i].1, id))
    && ms[|us|] == BurnTokens(tokens)
  }

  lemma {:induction false} UndelegateMessagesAt(us: seq<Undelegation>, id: BatchId)
    ensures |UndelegateMessages(us, id)| == |us|
    ensures forall i | 0 <= i < |us| :: UndelegateMessages(us, id)[i] == UndelegateStake(us[i].0, us[i].1, id)
  {
    if us != [] {
      UndelegateMessagesAt(us[1..], id);
    }
  }

  /** When an undelegation commits: it is not paused, the cooldown is over or the manager calls, the open batch has
      tokens, and the active members hold their worth. */
  ghost predicate UndelegateAccepted(w: World, sender: Addr, funds: seq<Coin>) {
    && !w.store.controls.undelegatePaused
    && VaultAmount(funds) <= Held(w.chain.luna, sender)
    && WorldCheckFits(w)
    && MayUndelegate(w.store, sender, w.chain.now)
    && Undelegatable(w.store, w.chain, CheckedRate(w))
  }

  /** The open batch is closed at the rate of the moment, its tokens are burnt, and their worth is unbonding for it, taken
      from the largest delegations and from as few validators as possible. */
  ghost predicate UndelegatedBy(w: World, t: World, sender: Addr, funds: seq<Coin>, us: seq<Undelegation>) {
    var s := w.store; var id := s.state.currentUndelegationBatchId; var tokens := OpenBatch(s).undelegatedTokens;
    var stake := BatchStake(s, CheckedRate(w));
    && LargestFirst(us, s.state.validators, w.chain.bonded, w.chain.delegations, stake)
    && Fewest(us, s.state.validators, w.chain.bonded, w.chain.delegations, stake)
    && stake <= PoolStake(w) && tokens <= w.chain.supply
    && t.store == s.(state := s.state.(totalStaked := PoolStake(w) - stake, exchangeRate := CheckedRate(w),
                                       lastUndelegationTime := w.chain.now, currentUndelegationBatchId := id + 1),
                     batches := ClosedBatches(s, w.chain.now, CheckedRate(w)),
                     validatorMeta := t.store.validatorMeta)
    && SyncedTo(s.validatorMeta, t.store.validatorMeta, s.state.validators, w.chain.delegations, t.chain.delegations)
    && t.chain == w.chain.(luna := t.chain.luna, tokens := t.chain.tokens, delegations := t.chain.delegations,
                           unbonding := t.chain.unbonding, supply := w.chain.supply - tokens)
    && TakenFrom(w.chain.delegations, t.chain.delegations, us)
    && (forall b :: Held(t.chain.unbonding, b) == Held(w.chain.unbonding, b) + if b == id then stake else 0)
    && (forall a :: Held(t.chain.tokens, a) + (if a == SELF then tokens else 0) == Held(w.chain.tokens, a))
    && Moved(w.chain.luna, t.chain.luna, sender, SELF, VaultAmount(funds))
    && t.withdrawn == w.withdrawn
  }

  lemma BurnExactly(ch: Chain, tokens: nat)
    requires tokens <= Held(ch.tokens, SELF) && tokens <= ch.supply
    ensures var r := ExecuteAll(ch, [BurnTokens(tokens)]);
      && r.Ok? && r.value == ch.(tokens := r.value.tokens, supply := ch.supply - tokens)
      && forall a :: Held(r.value.tokens, a) + (if a == SELF then tokens else 0) == Held(ch.tokens, a)
  {
    ExecuteOne(ch, BurnTokens(tokens));
  }

  lemma LargestAreExecutable(us: seq<Undelegation>, pool: seq<Addr>, bonded: set<Addr>, ds: map<Addr, nat>, stake: nat)
    requires LargestFirst(us, pool, bonded, ds, stake)
    ensures Executable(us, ds) && PlanSum(us) == stake
    ensures forall i | 0 <= i < |us| :: us[i].0 in pool
  {
    hide Before, PlanSum;
  }

  lemma {:induction false} HeldByAtMost(pool: seq<Addr>, vs: set<Addr>, ds: map<Addr, nat>)
    ensures StakeHeldBy(pool, vs, ds) <= DelegatedSum(pool, ds)
  {
    if pool != [] {
      HeldByAtMost(pool[..|pool| - 1], vs, ds);
    }
  }

  /** What executing the response leaves on the chain. */
  lemma ResponseExecutes(m: map<Addr, VMeta>, s: Store, ch: Chain, r: Response, us: seq<Undelegation>)
    requires UndelegateResponse(s, ch, r, us)
    requires SyncedTo(m, s.validatorMeta, s.state.validators, ch.delegations, ch.delegations)
    requires OpenBatch(s).undelegatedTokens <= Held(ch.tokens, SELF)
    requires OpenBatch(s).undelegatedTokens <= ch.supply
    ensures var x := ExecuteAll(ch, r.messages); var id := s.state.currentUndelegationBatchId;
      var tokens := OpenBatch(s).undelegatedTokens;
      && x.Ok?
      && x.value == ch.(tokens := x.value.tokens, delegations := x.value.delegations,
                        unbonding := x.value.unbonding, supply := ch.supply - tokens)
      && TakenFrom(ch.delegations, x.value.delegations, us)
      && SyncedTo(m, r.store.validatorMeta, s.state.validators, ch.delegations, x.value.delegations)
      && (forall b :: Held(x.value.unbonding, b) == Held(ch.unbonding, b)
                      + if b == id then BatchStake(s, s.state.exchangeRate) else 0)
      && (forall a :: Held(x.value.tokens, a) + (if a == SELF then tokens else 0) == Held(ch.tokens, a))
  {
    hide LargestFirst, Fewest, TakenFrom, SyncedTo, ExecuteAll, DecreaseTrackedStakes, UndelegateMessages, PlanSum,
      Executable, ClosedBatches, Held, BatchStake;
    var id := s.state.currentUndelegationBatchId;
    LargestAreExecutable(us, s.state.validators, ch.bonded, ch.delegations, BatchStake(s, s.state.exchangeRate));
    UndelegationsExactly(m, s.validatorMeta, s.state.validators, ch.delegations, ch, us, id);
    ExecuteAppend(ch, UndelegateMessages(us, id), [BurnTokens(OpenBatch(s).undelegatedTokens)]);
    BurnExactly(ExecuteAll(ch, UndelegateMessages(us, id)).value, OpenBatch(s).undelegatedTokens);
  }

  lemma UndelegateHandled(w: World, before: Chain, sender: Addr, funds: seq<Coin>) returns (us: seq<Undelegation>)
    requires w.store.state.currentUndelegationBatchId in w.store.batches && NoDuplicates(w.store.state.validators)
    requires OpenBatch(w.store).undelegatedTokens <= Held(w.chain.tokens, SELF)
    requires OpenBatch(w.store).undelegatedTokens <= w.chain.supply
    requires Attach(w.chain, sender, funds, CallUndelegate) == Ok(before) && before == w.chain.(luna := before.luna)
    requires Moved(w.chain.luna, before.luna, sender, SELF, VaultAmount(funds))
    requires VaultAmount(funds) <= Held(w.chain.luna, sender)
    ensures Transact(w, sender, funds, CallUndelegate).Ok? <==> UndelegateAccepted(w, sender, funds)
    ensures Transact(w, sender, funds, CallUndelegate).Ok? ==>
              && UndelegatedBy(w, Transact(w, sender, funds, CallUndelegate).value, sender, funds, us)
              && Emits(Dispatch(w.store, before, sender, funds, CallUndelegate).value.messages, us,
                       w.store.state.currentUndelegationBatchId, OpenBatch(w.store).undelegatedTokens)
  {
    hide Attach, CheckSlashing, UndelegateSynced, ExecuteAll, SyncedTo, CheckFits, RateOf, DelegatedSum, LargestFirst,
      Fewest, TakenFrom, StakeHeldBy, ActiveMember, DecreaseTrackedStakes, UndelegateMessages, NoDuplicates, Moved,
      VaultAmount, Held;
    us := [];
    CheckSlashingExactly(w.store, before);
    if CheckSlashing(w.store, before).Ok? {
      var s1 := CheckSlashing(w.store, before).value;
      us := UndelegateSyncedExactly(s1, before, sender);
      if UndelegateSynced(s1, before, sender).Ok? {
        ResponseExecutes(w.store.validatorMeta, s1, before, UndelegateSynced(s1, before, sender).value, us);
        HeldByAtMost(w.store.state.validators, w.chain.bonded, w.chain.delegations);
        UndelegateMessagesAt(us, w.store.state.currentUndelegationBatchId);
      }
    }
  }

  /** An undelegation commits exactly when it should, and then it has exactly the effect of `UndelegatedBy`. */
  lemma UndelegatingExactly(w: World, sender: Addr, funds: seq<Coin>)
    requires WorldOk(w) && WorldPoolOk(w)
    ensures var r := Transact(w, sender, funds, CallUndelegate);
      && (r.Ok? <==> UndelegateAccepted(w, sender, funds))
      && (r.Ok? ==>
            exists us: seq<Undelegation> ::
              && UndelegatedBy(w, r.value, sender, funds, us)
              && Emits(Dispatch(w.store, Attach(w.chain, sender, funds, CallUndelegate).value, sender, funds,
                                CallUndelegate).value.messages,
                       us, w.store.state.currentUndelegationBatchId, OpenBatch(w.store).undelegatedTokens))
  {
    hide Attach, Dispatch, ExecuteAll, VaultAmount, UndelegatedBy, Emits, ConfigOk, LedgerOk, CheckFits, Undelegatable,
      MayUndelegate, NoDuplicates, StakedSum, Total, Moved, OpenBatch, Held;
    AttachExactly(w.chain, sender, funds, CallUndelegate);
    if Attach(w.chain, sender, funds, CallUndelegate).Ok? {
      var before := Attach(w.chain, sender, funds, CallUndelegate).value;
      OpenBatchIn(w.store, w.withdrawn);
      OpenBatchInSupply(w.store, w.chain);
      var us := UndelegateHandled(w, before, sender, funds);
    }
  }

  lemma OpenBatchIn(s: Store, withdrawn: map<BatchId, nat>)
    requires LedgerOk(s, withdrawn)
    ensures s.state.currentUndelegationBatchId in s.batches
  {
    hide TokensAddUp, OutstandingClaims, BatchInOrder;
  }
}
