/** The validator pool: what the contract tracks against what is delegated on the chain. */
module Pool {
  import opened Results
  import opened Decimals
  import opened Sums
  import opened Storage
  import opened Selection
  import opened Handlers
  import opened Messages

  /** Validators are distinct, metadata is kept for exactly the pool members, the total is the sum of the tracked
      stakes, and nothing is delegated outside the pool. */
  ghost predicate PoolOk(s: Store, ds: map<Addr, nat>) {
    var pool := s.state.validators;
    && NoDuplicates(pool)
    && (forall v :: v in s.validatorMeta <==> v in pool)
    && s.state.totalStaked == StakedSum(pool, s.validatorMeta)
    && (forall v | v !in pool :: Held(ds, v) == 0)
  }

  /** Every tracked stake is the delegation on the chain. */
  ghost predicate Tracks(s: Store, ds: map<Addr, nat>) {
    forall v | v in s.state.validators :: MetaOf(s.validatorMeta, v).staked == Held(ds, v)
  }

  // ---- Sums over the pool ----

  lemma {:induction false} StakedSumFrame(pool: seq<Addr>, m: map<Addr, VMeta>, n: map<Addr, VMeta>)
    requires forall v | v in pool :: MetaOf(n, v).staked == MetaOf(m, v).staked
    ensures StakedSum(pool, n) == StakedSum(pool, m)
  {
    if pool != [] {
      StakedSumFrame(pool[..|pool| - 1], m, n);
    }
  }

  lemma {:induction false} StakedSumUpdate(pool: seq<Addr>, m: map<Addr, VMeta>, v: Addr, x: VMeta)
    requires NoDuplicates(pool) && v in pool
    ensures StakedSum(pool, m[v := x]) + MetaOf(m, v).staked == StakedSum(pool, m) + x.staked
  {
    var front := pool[..|pool| - 1];
    var last := pool[|pool| - 1];
    if last == v {
      StakedSumFrame(front, m, m[v := x]);
    } else {
      assert v in front;
      StakedSumUpdate(front, m, v, x);
    }
  }

  lemma {:induction false} StakedSumIsDelegated(pool: seq<Addr>, m: map<Addr, VMeta>, ds: map<Addr, nat>)
    requires forall v | v in pool :: MetaOf(m, v).staked == Held(ds, v)
    ensures StakedSum(pool, m) == DelegatedSum(pool, ds)
  {
    if pool != [] {
      StakedSumIsDelegated(pool[..|pool| - 1], m, ds);
    }
  }

  lemma {:induction false} WithoutMembers(pool: seq<Addr>, v: Addr)
    ensures forall u :: u in Without(pool, v) <==> u in pool && u != v
    ensures NoDuplicates(pool) ==> NoDuplicates(Without(pool, v))
  {
    if pool != [] {
      var front := pool[..|pool| - 1];
      WithoutMembers(front, v);
      assert pool == front + [pool[|pool| - 1]];
      assert NoDuplicates(pool) ==> NoDuplicates(front) && pool[|pool| - 1] !in front;
    }
  }

  lemma {:induction false} StakedSumWithout(pool: seq<Addr>, m: map<Addr, VMeta>, v: Addr)
    requires NoDuplicates(pool)
    ensures StakedSum(Without(pool, v), m) + (if v in pool then MetaOf(m, v).staked else 0) == StakedSum(pool, m)
  {
    if pool != [] {
      var front := pool[..|pool| - 1];
      StakedSumWithout(front, m, v);
      WithoutMembers(front, v);
      var rest := Without(front, v);
      assert (rest + [pool[|pool| - 1]])[..|rest|] == rest;
      assert v in pool <==> v in front || v == pool[|pool| - 1];
    }
  }

  // ---- The slashing check ----

  lemma SyncMetaTwice(m: VMeta, d: nat)
    ensures SyncMeta(SyncMeta(m, d), d) == SyncMeta(m, d)
  {
  }

  lemma {:induction false} SyncPoolAt(meta: map<Addr, VMeta>, pool: seq<Addr>, ds: map<Addr, nat>, v: Addr)
    requires SyncPool(meta, pool, ds).Ok?
    ensures var m := SyncPool(meta, pool, ds).value;
      && (v in m <==> v in meta || v in pool)
      && MetaOf(m, v) == (if v in pool then SyncMeta(MetaOf(meta, v), Held(ds, v)) else MetaOf(meta, v))
      && (v in pool ==> MetaOf(m, v).slashed < U128_LIMIT)
  {
    hide SyncMeta, Held;
    if pool != [] {
      var front := pool[..|pool| - 1];
      SyncPoolAt(meta, front, ds, v);
      assert v in pool <==> v in front || v == pool[|pool| - 1];
      SyncMetaTwice(MetaOf(meta, v), Held(ds, v));
    }
  }

  /** What a slashing check does to the metadata: pool members are set to their delegation, with any shortfall added
      to what they were slashed; nothing else changes. */
  lemma SyncPoolIs(meta: map<Addr, VMeta>, pool: seq<Addr>, ds: map<Addr, nat>)
    requires SyncPool(meta, pool, ds).Ok?
    ensures var m := SyncPool(meta, pool, ds).value;
      && (forall v :: v in m <==> v in meta || v in pool)
      && (forall v | v in pool :: MetaOf(m, v) == SyncMeta(MetaOf(meta, v), Held(ds, v))
                                  && MetaOf(m, v).slashed < U128_LIMIT)
      && (forall v | v !in pool :: MetaOf(m, v) == MetaOf(meta, v))
  {
    hide SyncPool, MetaOf, SyncMeta;
    var m := SyncPool(meta, pool, ds).value;
    forall v
      ensures v in m <==> v in meta || v in pool
      ensures MetaOf(m, v) == if v in pool then SyncMeta(MetaOf(meta, v), Held(ds, v)) else MetaOf(meta, v)
      ensures v in pool ==> MetaOf(m, v).slashed < U128_LIMIT
    {
      SyncPoolAt(meta, pool, ds, v);
    }
  }

  /** For each pool member the new stake and what is newly recorded as slashed make up the larger of the old stake and
      the delegation; so `slashed` never decreases, and no stake goes unaccounted. */
  lemma SlashingIsAccounted(s: Store, ch: Chain, v: Addr)
    requires CheckSlashing(s, ch).Ok? && v in s.state.validators
    ensures var m, n := MetaOf(s.validatorMeta, v), MetaOf(CheckSlashing(s, ch).value.validatorMeta, v);
      && n.staked == Held(ch.delegations, v)
      && m.slashed <= n.slashed
      && n.staked + (n.slashed - m.slashed) == (if m.staked < n.staked then n.staked else m.staked)
      && n.filled == m.filled
  {
    hide CalculateExchangeRate, SyncPool, DelegatedSum, MetaOf, Held;
    SyncPoolAt(s.validatorMeta, s.state.validators, ch.delegations, v);
  }

  lemma {:induction false} SyncPoolUnchanged(meta: map<Addr, VMeta>, pool: seq<Addr>, ds: map<Addr, nat>)
    requires forall v | v in pool :: v in meta && meta[v].staked == Held(ds, v) && meta[v].slashed < U128_LIMIT
    ensures SyncPool(meta, pool, ds) == Ok(meta)
  {
    if pool != [] {
      SyncPoolUnchanged(meta, pool[..|pool| - 1], ds);
      var v := pool[|pool| - 1];
      assert v in pool;
      assert meta[v := meta[v]] == meta;
    }
  }

  /** A second check on the same chain changes nothing. */
  lemma CheckSlashingIdempotent(s: Store, ch: Chain)
    requires CheckSlashing(s, ch).Ok?
    ensures CheckSlashing(CheckSlashing(s, ch).value, ch) == CheckSlashing(s, ch)
  {
    hide CalculateExchangeRate, SyncPool;
    var s1 := CheckSlashing(s, ch).value;
    SyncPoolIs(s.validatorMeta, s.state.validators, ch.delegations);
    SyncPoolUnchanged(s1.validatorMeta, s1.state.validators, ch.delegations);
  }

  /** After a check the tracked stakes are the delegations, whatever was slashed before. */
  lemma CheckSlashingTracks(s: Store, ch: Chain)
    requires PoolOk(s, ch.delegations) && CheckSlashing(s, ch).Ok?
    ensures var t := CheckSlashing(s, ch).value; PoolOk(t, ch.delegations) && Tracks(t, ch.delegations)
  {
    hide CalculateExchangeRate, SyncPool;
    var t := CheckSlashing(s, ch).value;
    SyncPoolIs(s.validatorMeta, s.state.validators, ch.delegations);
    StakedSumIsDelegated(t.state.validators, t.validatorMeta, ch.delegations);
  }

  // ---- What messages do to the delegations ----

  function StakingEffect(ds: map<Addr, nat>, m: Message): Result<map<Addr, nat>> {
    match m
    case Delegate(v, amount) => Ok(Credit(ds, v, amount))
    case UndelegateStake(v, amount, _) => Debit(ds, v, amount)
    case Redelegate(src, dst, amount) => Move(ds, src, dst, amount)
    case _ => Ok(ds)
  }

  function StakingEffects(ds: map<Addr, nat>, ms: seq<Message>): Result<map<Addr, nat>>
    decreases |ms|
  {
    if ms == [] then Ok(ds)
    else
      var rest :- StakingEffect(ds, ms[0]);
      StakingEffects(rest, ms[1..])
  }

  lemma {:induction false} ExecuteAllStakes(ch: Chain, ms: seq<Message>)
    requires ExecuteAll(ch, ms).Ok?
    ensures StakingEffects(ch.delegations, ms) == Ok(ExecuteAll(ch, ms).value.delegations)
    decreases |ms|
  {
    hide Credit, Debit, Move, SendAll, RewardContract.Transfer;
    if ms != [] {
      ExecuteAllStakes(Execute(ch, ms[0]).value, ms[1..]);
    }
  }

  lemma {:induction false} StakingAppend(ds: map<Addr, nat>, a: seq<Message>, b: seq<Message>)
    ensures StakingEffects(ds, a + b) == (match StakingEffects(ds, a)
                                          case Ok(mid) => StakingEffects(mid, b)
                                          case Err(e) => Err(e))
    decreases |a|
  {
    if a == [] {
      assert a + b == b;
    } else {
      assert (a + b)[1..] == a[1..] + b;
      if StakingEffect(ds, a[0]).Ok? {
        StakingAppend(StakingEffect(ds, a[0]).value, a[1..], b);
      }
    }
  }

  lemma StakingOne(ds: map<Addr, nat>, m: Message)
    ensures StakingEffects(ds, [m]) == StakingEffect(ds, m)
  {
    assert [m][1..] == [];
  }

  /** Only the message in the middle stakes. */
  lemma StakingMiddle(ds: map<Addr, nat>, a: seq<Message>, m: Message, b: seq<Message>)
    requires StakingEffects(ds, a) == Ok(ds)
    requires forall x: map<Addr, nat> :: StakingEffects(x, b) == Ok(x)
    ensures StakingEffects(ds, a + [m] + b) == StakingEffect(ds, m)
  {
    StakingAppend(ds, a + [m], b);
    StakingAppend(ds, a, [m]);
    StakingOne(ds, m);
  }

  lemma SendsDoNotStake(to: Addr, amount: nat)
    ensures forall x: map<Addr, nat> :: StakingEffects(x, SendMessages(to, amount)) == Ok(x)
    ensures forall x: map<Addr, nat> :: StakingEffects(x, MintMessages(to, amount)) == Ok(x)
  {
    forall x: map<Addr, nat>
      ensures StakingEffects(x, SendMessages(to, amount)) == Ok(x) == StakingEffects(x, MintMessages(to, amount))
    {
      StakingOne(x, BankSend(to, amount));
      StakingOne(x, MintTokens(to, amount));
    }
  }

  // ---- Each call keeps the pool in order ----

  /** Adding to the tracked stake of a pool member what is added to its delegation. */
  lemma IncreaseKeepsPool(s: Store, t: Store, ds: map<Addr, nat>, v: Addr, amount: nat)
    requires PoolOk(s, ds) && Tracks(s, ds) && v in s.state.validators
    requires IncreaseTrackedStake(s.validatorMeta, v, amount) == Ok(t.validatorMeta)
    requires t.state.validators == s.state.validators && t.state.totalStaked == s.state.totalStaked + amount
    ensures PoolOk(t, Credit(ds, v, amount)) && Tracks(t, Credit(ds, v, amount))
  {
    StakedSumUpdate(s.state.validators, s.validatorMeta, v, t.validatorMeta[v]);
  }

  lemma DecreaseKeepsPool(s: Store, t: Store, ds: map<Addr, nat>, v: Addr, amount: nat)
    requires PoolOk(s, ds) && Tracks(s, ds) && v in s.state.validators && amount <= Held(ds, v)
    requires t.validatorMeta == DecreaseTrackedStake(s.validatorMeta, v, amount)
    requires t.state.validators == s.state.validators && t.state.totalStaked + amount == s.state.totalStaked
    ensures PoolOk(t, Debit(ds, v, amount).value) && Tracks(t, Debit(ds, v, amount).value)
  {
    StakedSumUpdate(s.state.validators, s.validatorMeta, v, t.validatorMeta[v]);
  }

  lemma {:induction false} StakedAtMostSum(pool: seq<Addr>, m: map<Addr, VMeta>, v: Addr)
    requires v in pool
    ensures MetaOf(m, v).staked <= StakedSum(pool, m)
  {
    if pool[|pool| - 1] != v {
      assert v in pool[..|pool| - 1];
      StakedAtMostSum(pool[..|pool| - 1], m, v);
    }
  }

  lemma {:induction false} DecreasesKeepPool(s: Store, t: Store, ds: map<Addr, nat>, taken: seq<(Addr, nat)>,
                                             id: BatchId)
    requires PoolOk(s, ds) && Tracks(s, ds)
    requires forall i | 0 <= i < |taken| :: taken[i].0 in s.state.validators
    requires StakingEffects(ds, UndelegateMessages(taken, id)).Ok?
    requires t.validatorMeta == DecreaseTrackedStakes(s.validatorMeta, taken)
    requires t.state.validators == s.state.validators
    requires t.state.totalStaked + PlanSum(taken) == s.state.totalStaked
    ensures var after := StakingEffects(ds, UndelegateMessages(taken, id)).value; PoolOk(t, after) && Tracks(t, after)
    decreases |taken|
  {
    hide PoolOk, Tracks, Debit, DecreaseTrackedStake;
    if taken == [] {
      SamePool(s, t, ds);
    } else {
      var (v, amount) := taken[0];
      assert taken[0].0 in s.state.validators;
      assert UndelegateMessages(taken, id)[1..] == UndelegateMessages(taken[1..], id);
      var rest := Debit(ds, v, amount).value;
      assert amount <= Held(ds, v) by { DebitOk(ds, v, amount); }
      var mid := s.(validatorMeta := DecreaseTrackedStake(s.validatorMeta, v, amount),
                    state := s.state.(totalStaked := s.state.totalStaked - amount));
      DecreaseKeepsPool(s, mid, ds, v, amount);
      DecreasesKeepPool(mid, t, rest, taken[1..], id);
    }
  }

  lemma DebitOk(ds: map<Addr, nat>, v: Addr, amount: nat)
    requires Debit(ds, v, amount).Ok?
    ensures amount <= Held(ds, v)
  {
  }

  lemma SamePool(s: Store, t: Store, ds: map<Addr, nat>)
    requires PoolOk(s, ds)
    requires t.validatorMeta == s.validatorMeta && t.state.validators == s.state.validators
    requires t.state.totalStaked == s.state.totalStaked
    ensures PoolOk(t, ds) && (Tracks(s, ds) ==> Tracks(t, ds))
  {
  }

  lemma MoveKeepsPool(s: Store, t: Store, ds: map<Addr, nat>, v: Addr, redel: Addr, amount: nat)
    requires PoolOk(s, ds) && Tracks(s, ds)
    requires v in s.state.validators && redel in s.state.validators && v != redel && amount <= Held(ds, v)
    requires IncreaseTrackedStake(DecreaseTrackedStake(s.validatorMeta, v, amount), redel, amount) == Ok(t.validatorMeta)
    requires t.state.validators == s.state.validators && t.state.totalStaked == s.state.totalStaked
    ensures PoolOk(t, Move(ds, v, redel, amount).value) && Tracks(t, Move(ds, v, redel, amount).value)
  {
    hide PoolOk, Tracks, Debit, Credit, IncreaseTrackedStake, DecreaseTrackedStake;
    StakedCovers(s, ds, v);
    var mid := s.(validatorMeta := DecreaseTrackedStake(s.validatorMeta, v, amount),
                  state := s.state.(totalStaked := s.state.totalStaked - amount));
    DecreaseKeepsPool(s, mid, ds, v, amount);
    IncreaseKeepsPool(mid, t, Debit(ds, v, amount).value, redel, amount);
  }

  lemma StakedCovers(s: Store, ds: map<Addr, nat>, v: Addr)
    requires PoolOk(s, ds) && Tracks(s, ds) && v in s.state.validators
    ensures Held(ds, v) <= s.state.totalStaked
    ensures forall amount: nat | amount <= Held(ds, v) :: Debit(ds, v, amount).Ok?
  {
    StakedAtMostSum(s.state.validators, s.validatorMeta, v);
  }
}
