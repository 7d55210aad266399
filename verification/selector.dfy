/** The loops of the helper functions that choose validators. */
module Selector {
  import opened Results
  import opened Sums
  import opened Storage
  import opened Selection

  lemma {:induction false} ActivePrefix(pool: seq<Addr>, i: nat, bonded: set<Addr>)
    requires i <= |pool|
    ensures Active(pool[..i], bonded) <= Active(pool, bonded)
    decreases |pool|
  {
    if i < |pool| {
      var front := pool[..|pool| - 1];
      ActivePrefix(front, i, bonded);
      assert front[..i] == pool[..i];
    } else {
      assert pool[..i] == pool;
    }
  }

  lemma {:induction false} FirstWithoutDelegationAppend(a: seq<Addr>, b: seq<Addr>, ds: map<Addr, nat>)
    requires FirstWithoutDelegation(a, ds).None?
    ensures FirstWithoutDelegation(a + b, ds) == FirstWithoutDelegation(b, ds)
  {
    if a == [] {
      assert a + b == b;
    } else {
      assert (a + b)[1..] == a[1..] + b;
      FirstWithoutDelegationAppend(a[1..], b, ds);
    }
  }

  lemma FirstWithoutDelegationSnoc(a: seq<Addr>, v: Addr, ds: map<Addr, nat>)
    requires FirstWithoutDelegation(a, ds).None?
    ensures FirstWithoutDelegation(a + [v], ds) == if v in ds then None else Some(v)
  {
    FirstWithoutDelegationAppend(a, [v], ds);
  }

  /** An active member without a delegation, met before any other, decides the choice. */
  lemma FirstDecides(pool: seq<Addr>, i: nat, bonded: set<Addr>, ds: map<Addr, nat>)
    requires i < |pool| && pool[i] in bonded && pool[i] !in ds
    requires FirstWithoutDelegation(Active(pool[..i], bonded), ds).None?
    ensures FirstWithoutDelegation(Active(pool, bonded), ds) == Some(pool[i])
  {
    var before := Active(pool[..i], bonded);
    assert pool[..i + 1][..i] == pool[..i];
    assert Active(pool[..i + 1], bonded) == before + [pool[i]];
    ActivePrefix(pool, i + 1, bonded);
    var all := Active(pool, bonded);
    assert all == before + all[|before|..];
    FirstWithoutDelegationAppend(before, all[|before|..], ds);
  }

  /** One turn of the loops below. */
  lemma TuplesStep(pool: seq<Addr>, i: nat, bonded: set<Addr>, ds: map<Addr, nat>)
    requires i < |pool|
    ensures StakeTuples(Active(pool[..0], bonded), ds) == []
    ensures pool[i] in bonded ==>
              && Active(pool[..i + 1], bonded) == Active(pool[..i], bonded) + [pool[i]]
              && StakeTuples(Active(pool[..i + 1], bonded), ds)
                 == StakeTuples(Active(pool[..i], bonded), ds) + [(Held(ds, pool[i]), pool[i])]
    ensures pool[i] !in bonded ==> Active(pool[..i + 1], bonded) == Active(pool[..i], bonded)
  {
    var before := Active(pool[..i], bonded);
    assert pool[..i + 1][..i] == pool[..i];
    assert (before + [pool[i]])[..|before|] == before;
  }

  /** `get_validator_for_deposit`. */
  method GetValidatorForDeposit(pool: seq<Addr>, ch: Chain) returns (r: Result<Addr>)
    ensures r == ValidatorForDeposit(pool, ch.bonded, ch.delegations)
  {
    hide SortTuples, StakeTuples;
    if pool == [] {
      return Err(NoValidatorsInPool);
    }
    var stakeTuples := [];
    var i := 0;
    TuplesStep(pool, 0, ch.bonded, ch.delegations);
    while i < |pool|
      invariant i <= |pool|
      invariant stakeTuples == StakeTuples(Active(pool[..i], ch.bonded), ch.delegations)
      invariant FirstWithoutDelegation(Active(pool[..i], ch.bonded), ch.delegations).None?
    {
      var v := pool[i];
      TuplesStep(pool, i, ch.bonded, ch.delegations);
      if v in ch.bonded {
        if v !in ch.delegations {
          FirstDecides(pool, i, ch.bonded, ch.delegations);
          return Ok(v);
        }
        FirstWithoutDelegationSnoc(Active(pool[..i], ch.bonded), v, ch.delegations);
        stakeTuples := stakeTuples + [(ch.delegations[v], v)];
      }
      i := i + 1;
    }
    assert pool[..i] == pool;
    if stakeTuples == [] {
      return Err(AllValidatorsJailed);
    }
    stakeTuples := SortTuples(stakeTuples);
    return Ok(stakeTuples[0].1);
  }

  /** `get_active_validators_sorted_by_stake`. */
  method GetActiveValidatorsSortedByStake(pool: seq<Addr>, ch: Chain) returns (r: Result<seq<StakeTuple>>)
    ensures r == ActiveValidatorsSortedByStake(pool, ch.bonded, ch.delegations)
  {
    hide SortTuples, StakeTuples;
    if pool == [] {
      return Err(NoValidatorsInPool);
    }
    var stakeTuples := [];
    var i := 0;
    TuplesStep(pool, 0, ch.bonded, ch.delegations);
    while i < |pool|
      invariant i <= |pool|
      invariant stakeTuples == StakeTuples(Active(pool[..i], ch.bonded), ch.delegations)
    {
      var v := pool[i];
      TuplesStep(pool, i, ch.bonded, ch.delegations);
      if v in ch.bonded {
        if v in ch.delegations {
          stakeTuples := stakeTuples + [(ch.delegations[v], v)];
        } else {
          stakeTuples := stakeTuples + [(0, v)];
        }
      }
      i := i + 1;
    }
    assert pool[..i] == pool;
    if stakeTuples == [] {
      return Err(AllValidatorsJailed);
    }
    return Ok(SortTuples(stakeTuples));
  }
}
