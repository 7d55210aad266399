/** What comes with a call and what the slashing check does, stated without the handlers: when they succeed and the whole
    of what they leave behind. The modules about single calls build on this. */
module SlashingCheck {
  import opened Results
  import opened Decimals
  import opened Sums
  import opened Storage
  import opened Handlers
  import opened Machine
  import opened Pool

  /** The exchange rate that `stake` and `supply` make: stake per token, and one when there is nothing to divide. */
  function RateOf(stake: nat, supply: nat): nat {
    if stake == 0 || supply == 0 then ONE else ONE * stake / supply
  }

  /** The stake of the pool on the chain, and the rate that goes with it. */
  function PoolStake(w: World): nat {
    DelegatedSum(w.store.state.validators, w.chain.delegations)
  }

  function CheckedRate(w: World): nat {
    RateOf(PoolStake(w), w.chain.supply)
  }

  /** What a validator was slashed, once its delegation is known. */
  function SlashedBy(m: VMeta, delegation: nat): nat {
    m.slashed + if delegation < m.staked then m.staked - delegation else 0
  }

  /** Nothing that the slashing check calculates overflows. */
  ghost predicate CheckFits(s: Store, ds: map<Addr, nat>, supply: nat) {
    var stake := DelegatedSum(s.state.validators, ds);
    && stake < U128_LIMIT && RateOf(stake, supply) < U128_LIMIT
    && forall v | v in s.state.validators :: SlashedBy(MetaOf(s.validatorMeta, v), Held(ds, v)) < U128_LIMIT
  }

  ghost predicate WorldCheckFits(w: World) {
    CheckFits(w.store, w.chain.delegations, w.chain.supply)
  }

  /** `n` is `m` after a check that found the delegations `ds` and a call that left the delegations `after`. */
  ghost predicate SyncedTo(m: map<Addr, VMeta>, n: map<Addr, VMeta>, pool: seq<Addr>, ds: map<Addr, nat>,
                           after: map<Addr, nat>) {
    && (forall v :: v in n <==> v in m || v in pool)
    && (forall v | v in pool ::
          MetaOf(n, v) == VMeta(Held(after, v), SlashedBy(MetaOf(m, v), Held(ds, v)), MetaOf(m, v).filled))
    && (forall v | v !in pool :: MetaOf(n, v) == MetaOf(m, v))
  }

  lemma RateOfIs(stake: nat, supply: nat)
    ensures CalculateExchangeRate(stake, supply)
         == if RateOf(stake, supply) < U128_LIMIT then Ok(RateOf(stake, supply)) else Err(Panic)
  {
  }

  lemma {:induction false} SyncPoolSucceeds(meta: map<Addr, VMeta>, pool: seq<Addr>, ds: map<Addr, nat>)
    requires forall v | v in pool :: SlashedBy(MetaOf(meta, v), Held(ds, v)) < U128_LIMIT
    ensures SyncPool(meta, pool, ds).Ok?
  {
    hide MetaOf, Held;
    if pool != [] {
      var front := pool[..|pool| - 1];
      var v := pool[|pool| - 1];
      assert v in pool;
      SyncPoolSucceeds(meta, front, ds);
      SyncPoolAt(meta, front, ds, v);
    }
  }

  lemma SyncMetaIs(m: VMeta, delegation: nat)
    ensures SyncMeta(m, delegation) == VMeta(delegation, SlashedBy(m, delegation), m.filled)
  {
  }

  lemma SyncPoolSyncs(meta: map<Addr, VMeta>, pool: seq<Addr>, ds: map<Addr, nat>)
    requires SyncPool(meta, pool, ds).Ok?
    ensures SyncedTo(meta, SyncPool(meta, pool, ds).value, pool, ds, ds)
    ensures forall v | v in pool :: SlashedBy(MetaOf(meta, v), Held(ds, v)) < U128_LIMIT
  {
    hide SyncPool, SyncMeta, MetaOf, Held, SlashedBy;
    SyncPoolIs(meta, pool, ds);
    var n := SyncPool(meta, pool, ds).value;
    forall v | v in pool
      ensures MetaOf(n, v) == VMeta(Held(ds, v), SlashedBy(MetaOf(meta, v), Held(ds, v)), MetaOf(meta, v).filled)
      ensures SlashedBy(MetaOf(meta, v), Held(ds, v)) < U128_LIMIT
    {
      SyncMetaIs(MetaOf(meta, v), Held(ds, v));
      assert MetaOf(n, v).slashed < U128_LIMIT;
    }
  }

  /** The slashing check fails exactly on overflow. It sets every pool member to its delegation, records each shortfall,
      and leaves the total and the rate of the pool's delegations; nothing else changes. */
  lemma CheckSlashingExactly(s: Store, ch: Chain)
    ensures CheckSlashing(s, ch).Ok? <==> CheckFits(s, ch.delegations, ch.supply)
    ensures CheckSlashing(s, ch).Ok? ==>
              var t := CheckSlashing(s, ch).value; var stake := DelegatedSum(s.state.validators, ch.delegations);
              && t == s.(validatorMeta := t.validatorMeta,
                         state := s.state.(totalStaked := stake, exchangeRate := RateOf(stake, ch.supply)))
              && SyncedTo(s.validatorMeta, t.validatorMeta, s.state.validators, ch.delegations, ch.delegations)
  {
    hide CalculateExchangeRate, SyncPool, DelegatedSum, RateOf, SyncedTo, SlashedBy;
    var pool := s.state.validators;
    RateOfIs(DelegatedSum(pool, ch.delegations), ch.supply);
    if SyncPool(s.validatorMeta, pool, ch.delegations).Ok? {
      SyncPoolSyncs(s.validatorMeta, pool, ch.delegations);
    } else if CheckFits(s, ch.delegations, ch.supply) {
      SyncPoolSucceeds(s.validatorMeta, pool, ch.delegations);
    }
  }

  // ---- Tracked stake after the check ----

  lemma StakeOf(m: map<Addr, VMeta>, n: map<Addr, VMeta>, pool: seq<Addr>, ds: map<Addr, nat>, v: Addr)
    requires SyncedTo(m, n, pool, ds, ds) && v in pool
    ensures MetaOf(n, v).staked == Held(ds, v) && v in n
  {
  }

  lemma IncreasesMeta(meta: map<Addr, VMeta>, v: Addr, n: nat)
    ensures var r := IncreaseTrackedStake(meta, v, n);
      && (r.Ok? <==> MetaOf(meta, v).staked + n < U128_LIMIT)
      && (r.Ok? ==> r.value == meta[v := MetaOf(meta, v).(staked := MetaOf(meta, v).staked + n)])
  {
  }

  lemma SyncedIncreases(m: map<Addr, VMeta>, m1: map<Addr, VMeta>, pool: seq<Addr>, ds: map<Addr, nat>, v: Addr, n: nat)
    requires SyncedTo(m, m1, pool, ds, ds) && v in pool
    ensures SyncedTo(m, m1[v := MetaOf(m1, v).(staked := MetaOf(m1, v).staked + n)], pool, ds, Credit(ds, v, n))
  {
    hide SlashedBy;
  }

  lemma {:induction false} HeldAtMostSum(pool: seq<Addr>, ds: map<Addr, nat>, v: Addr)
    requires v in pool
    ensures Held(ds, v) <= DelegatedSum(pool, ds)
  {
    var front := pool[..|pool| - 1];
    if v != pool[|pool| - 1] {
      assert v in front;
      HeldAtMostSum(front, ds, v);
    }
  }

  // ---- What comes with a call ----

  /** The sender holds what comes with the call. */
  predicate Attachable(ch: Chain, sender: Addr, funds: seq<Coin>, call: Call) {
    && VaultAmount(funds) <= Held(ch.luna, sender)
    && (call.CallQueueUndelegation? ==> 0 < call.amount <= Held(ch.tokens, sender))
  }

  lemma AttachExactly(ch: Chain, sender: Addr, funds: seq<Coin>, call: Call)
    ensures Attach(ch, sender, funds, call).Ok? <==> Attachable(ch, sender, funds, call)
    ensures Attach(ch, sender, funds, call).Ok? ==>
              var before := Attach(ch, sender, funds, call).value;
              && before == ch.(luna := before.luna, tokens := before.tokens)
              && Moved(ch.luna, before.luna, sender, SELF, VaultAmount(funds))
              && (if call.CallQueueUndelegation? then Moved(ch.tokens, before.tokens, sender, SELF, call.amount)
                  else before.tokens == ch.tokens)
  {
    hide Move, Moved, VaultAmount, Held;
    MoveMoves(ch.luna, sender, SELF, VaultAmount(funds));
    if call.CallQueueUndelegation? {
      MoveMoves(ch.tokens, sender, SELF, call.amount);
    }
  }
}
