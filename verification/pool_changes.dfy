/** The manager's calls on the validator pool: exactly when they commit, and which stake they move where. */
module PoolChanges {
  import opened Decimals
  import opened Sums
  import opened Storage
  import opened Handlers
  import opened Messages
  import opened Machine
  import opened PoolRuns
  import opened SlashFree
  import opened SlashingCheck

  /** Apart from the attached funds, the chain differs only in the delegations. */
  ghost predicate OnlyDelegationsMove(w: World, t: World, sender: Addr, funds: seq<Coin>) {
    && t.chain == w.chain.(luna := t.chain.luna, delegations := t.chain.delegations)
    && Moved(w.chain.luna, t.chain.luna, sender, SELF, VaultAmount(funds))
    && t.withdrawn == w.withdrawn
  }

  // ---- Adding ----

  /** Only the manager adds a validator, only a known one, and only once. It joins at the end of the pool, with nothing
      tracked yet. */
  lemma AddingExactly(w: World, sender: Addr, funds: seq<Coin>, v: Addr)
    ensures var r := Transact(w, sender, funds, CallAddValidator(v)); var s := w.store;
      && (r.Ok? <==> && sender == s.config.manager && v !in s.state.validators && v in w.chain.known
                     && VaultAmount(funds) <= Held(w.chain.luna, sender))
      && (r.Ok? ==> && r.value.store == s.(state := s.state.(validators := s.state.validators + [v]),
                                           validatorMeta := s.validatorMeta[v := VMeta(0, 0, 0)])
                    && OnlyDelegationsMove(w, r.value, sender, funds)
                    && r.value.chain.delegations == w.chain.delegations)
  {
    hide Attach, Moved, VaultAmount;
    AttachExactly(w.chain, sender, funds, CallAddValidator(v));
  }

  // ---- Rebalancing ----

  /** `n` can be moved from `v` to `redel`. */
  ghost predicate Movable(s: Store, ch: Chain, v: Addr, redel: Addr, n: nat) {
    && v != redel && v in s.state.validators && redel in s.state.validators
    && n <= Held(ch.delegations, v) && v !in ch.redelegating
    && Held(ch.delegations, redel) + n < U128_LIMIT
  }

  /** Moving tracked stake along with a delegation keeps the metadata in step with it. */
  lemma SyncedMoves(m: map<Addr, VMeta>, m1: map<Addr, VMeta>, m2: map<Addr, VMeta>, pool: seq<Addr>,
                    ds: map<Addr, nat>, after: map<Addr, nat>, v: Addr, redel: Addr, n: nat)
    requires SyncedTo(m, m1, pool, ds, ds) && Moved(ds, after, v, redel, n)
    requires v in pool && redel in pool && v != redel && n <= Held(ds, v)
    requires m2 == m1[v := MetaOf(m1, v).(staked := SaturatingSub(MetaOf(m1, v).staked, n))]
                     [redel := MetaOf(m1, redel).(staked := MetaOf(m1, redel).staked + n)]
    ensures SyncedTo(m, m2, pool, ds, after)
  {
    hide SlashedBy, Held;
    forall u ensures MetaOf(m2, u) == if u == redel then m2[redel] else if u == v then m2[v] else MetaOf(m1, u) {
    }
  }

  lemma RebalancesMeta(meta: map<Addr, VMeta>, v: Addr, redel: Addr, n: nat)
    requires v != redel
    ensures var r := IncreaseTrackedStake(DecreaseTrackedStake(meta, v, n), redel, n);
      && (r.Ok? <==> MetaOf(meta, redel).staked + n < U128_LIMIT)
      && (r.Ok? ==> r.value == meta[v := MetaOf(meta, v).(staked := SaturatingSub(MetaOf(meta, v).staked, n))]
                                   [redel := MetaOf(meta, redel).(staked := MetaOf(meta, redel).staked + n)])
  {
  }

  lemma RebalanceSyncedExactly(m: map<Addr, VMeta>, s: Store, ch: Chain, n: nat, v: Addr, redel: Addr)
    requires SyncedTo(m, s.validatorMeta, s.state.validators, ch.delegations, ch.delegations) && n > 0
    ensures RebalanceSynced(s, ch, n, v, redel).Ok? <==> Movable(s, ch, v, redel, n)
    ensures RebalanceSynced(s, ch, n, v, redel).Ok? ==>
              var r := RebalanceSynced(s, ch, n, v, redel).value;
              && r == Response(s.(validatorMeta := r.store.validatorMeta), [Redelegate(v, redel, n)])
              && forall after | Moved(ch.delegations, after, v, redel, n) ::
                   SyncedTo(m, r.store.validatorMeta, s.state.validators, ch.delegations, after)
  {
    hide SyncedTo, Moved, MetaOf, IncreaseTrackedStake, DecreaseTrackedStake;
    if v != redel && v in s.state.validators && redel in s.state.validators {
      RebalancesMeta(s.validatorMeta, v, redel, n);
      StakeOf(m, s.validatorMeta, s.state.validators, ch.delegations, redel);
      if Movable(s, ch, v, redel, n) {
        var m2 := RebalanceSynced(s, ch, n, v, redel).value.store.validatorMeta;
        forall after | Moved(ch.delegations, after, v, redel, n)
          ensures SyncedTo(m, m2, s.state.validators, ch.delegations, after)
        {
          SyncedMoves(m, s.validatorMeta, m2, s.state.validators, ch.delegations, after, v, redel, n);
        }
      }
    }
  }

  lemma RedelegateExecutes(ch: Chain, v: Addr, redel: Addr, n: nat)
    requires n <= Held(ch.delegations, v)
    ensures var r := ExecuteAll(ch, [Redelegate(v, redel, n)]);
      && r.Ok? && r.value == ch.(delegations := r.value.delegations)
      && Moved(ch.delegations, r.value.delegations, v, redel, n)
  {
    hide Move, Moved;
    MoveMoves(ch.delegations, v, redel, n);
    ExecuteOne(ch, Redelegate(v, redel, n));
  }

  /** A rebalancing by the manager takes a positive amount from `v`, which must have it and not be redelegating, and
      gives it to `redel`: the delegations on the chain and the tracked stakes change by exactly that. */
  lemma RebalancingExactly(w: World, sender: Addr, funds: seq<Coin>, n: nat, v: Addr, redel: Addr)
    ensures var r := Transact(w, sender, funds, CallRebalancePool(n, v, redel)); var s := w.store;
      && (r.Ok? <==> && sender == s.config.manager && n > 0
                     && VaultAmount(funds) <= Held(w.chain.luna, sender)
                     && WorldCheckFits(w) && Movable(s, w.chain, v, redel, n))
      && (r.Ok? ==>
            && r.value.store == s.(
                 state := s.state.(totalStaked := PoolStake(w), exchangeRate := CheckedRate(w)),
                 validatorMeta := r.value.store.validatorMeta)
            && SyncedTo(s.validatorMeta, r.value.store.validatorMeta, s.state.validators, w.chain.delegations,
                        r.value.chain.delegations)
            && OnlyDelegationsMove(w, r.value, sender, funds)
            && Moved(w.chain.delegations, r.value.chain.delegations, v, redel, n))
  {
    hide Attach, CheckSlashing, RebalanceSynced, ExecuteAll, SyncedTo, Moved, VaultAmount, CheckFits, RateOf;
    var call := CallRebalancePool(n, v, redel);
    AttachExactly(w.chain, sender, funds, call);
    if Attach(w.chain, sender, funds, call).Ok? && n > 0 {
      var before := Attach(w.chain, sender, funds, call).value;
      CheckSlashingExactly(w.store, before);
      if CheckSlashing(w.store, before).Ok? {
        RebalanceSyncedExactly(w.store.validatorMeta, CheckSlashing(w.store, before).value, before, n, v, redel);
        if Movable(w.store, before, v, redel, n) {
          RedelegateExecutes(before, v, redel, n);
        }
      }
    }
  }

  // ---- Removing ----

  lemma {:induction false} WithoutAt(pool: seq<Addr>, i: nat)
    requires NoDuplicates(pool) && i < |pool|
    ensures Without(pool, pool[i]) == pool[..i] + pool[i + 1..]
  {
    var front := pool[..|pool| - 1];
    if i < |pool| - 1 {
      WithoutAt(front, i);
      assert pool[i + 1..] == front[i + 1..] + [pool[|pool| - 1]];
      assert front[..i] == pool[..i];
    } else {
      WithoutAbsent(front, pool[i]);
      assert pool[i + 1..] == [] && pool[..i] == front;
    }
  }

  lemma {:induction false} WithoutAbsent(pool: seq<Addr>, v: Addr)
    requires v !in pool
    ensures Without(pool, v) == pool
  {
    if pool != [] {
      WithoutAbsent(pool[..|pool| - 1], v);
      assert pool == pool[..|pool| - 1] + [pool[|pool| - 1]];
    }
  }

  /** `v` can leave the pool and its stake go to `redel`. */
  ghost predicate Removable(s: Store, ch: Chain, v: Addr, redel: Addr) {
    && v != redel && v in s.state.validators && redel in s.state.validators
    && (v in ch.delegations ==>
          v !in ch.redelegating && Held(ch.delegations, redel) + ch.delegations[v] < U128_LIMIT)
  }

  /** As `SyncedTo`, but nothing is kept for `v`. */
  ghost predicate SyncedWithout(m: map<Addr, VMeta>, n: map<Addr, VMeta>, pool: seq<Addr>, ds: map<Addr, nat>,
                                after: map<Addr, nat>, v: Addr) {
    && (forall u :: u in n <==> (u in m || u in pool) && u != v)
    && (forall u | u in pool && u != v ::
          MetaOf(n, u) == VMeta(Held(after, u), SlashedBy(MetaOf(m, u), Held(ds, u)), MetaOf(m, u).filled))
    && (forall u | u !in pool && u != v :: MetaOf(n, u) == MetaOf(m, u))
  }

  lemma SyncedRemoves(m: map<Addr, VMeta>, m1: map<Addr, VMeta>, m2: map<Addr, VMeta>, pool: seq<Addr>,
                      ds: map<Addr, nat>, after: map<Addr, nat>, v: Addr, redel: Addr)
    requires SyncedTo(m, m1, pool, ds, ds) && Moved(ds, after, v, redel, Held(ds, v))
    requires v in pool && redel in pool && v != redel
    requires m2 == m1[redel := MetaOf(m1, redel).(staked := MetaOf(m1, redel).staked + Held(ds, v))] - {v}
    ensures SyncedWithout(m, m2, pool, ds, after, v)
  {
    hide SlashedBy, Held;
    forall u | u != v ensures MetaOf(m2, u) == if u == redel then m2[redel] else MetaOf(m1, u) {
    }
  }

  lemma NothingToIncrease(meta: map<Addr, VMeta>, v: Addr)
    requires v in meta
    ensures meta[v := MetaOf(meta, v).(staked := MetaOf(meta, v).staked + 0)] == meta
  {
  }

  lemma RemoveSyncedExactly(m: map<Addr, VMeta>, s: Store, ch: Chain, v: Addr, redel: Addr)
    requires SyncedTo(m, s.validatorMeta, s.state.validators, ch.delegations, ch.delegations)
    ensures RemoveSynced(s, ch, v, redel).Ok? <==> Removable(s, ch, v, redel)
    ensures RemoveSynced(s, ch, v, redel).Ok? ==>
              var r := RemoveSynced(s, ch, v, redel).value; var n := Held(ch.delegations, v);
              && r.store == s.(validatorMeta := r.store.validatorMeta,
                               state := s.state.(validators := Without(s.state.validators, v)))
              && r.messages == (if n == 0 then [] else [Redelegate(v, redel, n)])
              && forall after | Moved(ch.delegations, after, v, redel, n) ::
                   SyncedWithout(m, r.store.validatorMeta, s.state.validators, ch.delegations, after, v)
  {
    hide SyncedTo, SyncedWithout, Moved, MetaOf, IncreaseTrackedStake, Without;
    if v != redel && v in s.state.validators && redel in s.state.validators {
      IncreasesMeta(s.validatorMeta, redel, Held(ch.delegations, v));
      StakeOf(m, s.validatorMeta, s.state.validators, ch.delegations, redel);
      NothingToIncrease(s.validatorMeta, redel);
      if Removable(s, ch, v, redel) {
        var m2 := RemoveSynced(s, ch, v, redel).value.store.validatorMeta;
        forall after | Moved(ch.delegations, after, v, redel, Held(ch.delegations, v))
          ensures SyncedWithout(m, m2, s.state.validators, ch.delegations, after, v)
        {
          SyncedRemoves(m, s.validatorMeta, m2, s.state.validators, ch.delegations, after, v, redel);
        }
      }
    }
  }

  lemma RedelegateAllExecutes(ch: Chain, v: Addr, redel: Addr)
    ensures var n := Held(ch.delegations, v);
      var r := ExecuteAll(ch, if n == 0 then [] else [Redelegate(v, redel, n)]);
      && r.Ok? && r.value == ch.(delegations := r.value.delegations)
      && Moved(ch.delegations, r.value.delegations, v, redel, n)
  {
    if Held(ch.delegations, v) > 0 {
      RedelegateExecutes(ch, v, redel, Held(ch.delegations, v));
    }
  }

  /** A removal by the manager takes `v` out of the pool, keeping the order of the others, and hands all of its stake to
      `redel`, on the chain and in the tracked stakes. It is refused while `v` is redelegating. */
  lemma RemovingExactly(w: World, sender: Addr, funds: seq<Coin>, v: Addr, redel: Addr)
    requires WorldPoolOk(w)
    ensures var r := Transact(w, sender, funds, CallRemoveValidator(v, redel));
      var s := w.store; var pool := s.state.validators;
      && (r.Ok? <==> && sender == s.config.manager
                     && VaultAmount(funds) <= Held(w.chain.luna, sender)
                     && WorldCheckFits(w) && Removable(s, w.chain, v, redel))
      && (r.Ok? ==>
            var t := r.value;
            && t.store == s.(
                 state := s.state.(totalStaked := PoolStake(w), exchangeRate := CheckedRate(w),
                                   validators := t.store.state.validators),
                 validatorMeta := t.store.validatorMeta)
            && (exists i | 0 <= i < |pool| :: pool[i] == v && t.store.state.validators == pool[..i] + pool[i + 1..])
            && SyncedWithout(s.validatorMeta, t.store.validatorMeta, pool, w.chain.delegations, t.chain.delegations, v)
            && OnlyDelegationsMove(w, t, sender, funds)
            && Moved(w.chain.delegations, t.chain.delegations, v, redel, Held(w.chain.delegations, v)))
  {
    hide Attach, CheckSlashing, RemoveSynced, ExecuteAll, SyncedTo, SyncedWithout, Moved, VaultAmount, CheckFits, RateOf,
      StakedSum, Without;
    var call := CallRemoveValidator(v, redel);
    AttachExactly(w.chain, sender, funds, call);
    if Attach(w.chain, sender, funds, call).Ok? {
      var before := Attach(w.chain, sender, funds, call).value;
      CheckSlashingExactly(w.store, before);
      if CheckSlashing(w.store, before).Ok? {
        RemoveSyncedExactly(w.store.validatorMeta, CheckSlashing(w.store, before).value, before, v, redel);
        RedelegateAllExecutes(before, v, redel);
        if v in w.store.state.validators {
          var i :| 0 <= i < |w.store.state.validators| && w.store.state.validators[i] == v;
          WithoutAt(w.store.state.validators, i);
        }
      }
    }
  }
}
