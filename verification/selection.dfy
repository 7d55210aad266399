/** Choosing validators: where a deposit goes, and how an undelegation is spread. */
module Selection {
  import opened Results
  import opened Decimals
  import opened Sums
  import opened Storage

  /** A validator's delegation with its address, ordered as Rust orders pairs. */
  type StakeTuple = (nat, Addr)

  predicate Before(a: StakeTuple, b: StakeTuple) {
    a.0 < b.0 || (a.0 == b.0 && a.1 <= b.1)
  }

  ghost predicate Sorted(s: seq<StakeTuple>) {
    forall i, j | 0 <= i < j < |s| :: Before(s[i], s[j])
  }

  function InsertTuple(s: seq<StakeTuple>, x: StakeTuple): (r: seq<StakeTuple>)
    ensures |r| == |s| + 1
  {
    if s == [] || Before(s[|s| - 1], x) then s + [x]
    else InsertTuple(s[..|s| - 1], x) + [s[|s| - 1]]
  }

  /** The library's `sort` on a vector of pairs. */
  function SortTuples(s: seq<StakeTuple>): (r: seq<StakeTuple>)
    ensures |r| == |s|
  {
    if s == [] then [] else InsertTuple(SortTuples(s[..|s| - 1]), s[|s| - 1])
  }

  /** The pool members that are in the active set, in pool order. */
  function Active(pool: seq<Addr>, bonded: set<Addr>): seq<Addr> {
    if pool == [] then []
    else
      var rest := Active(pool[..|pool| - 1], bonded);
      if pool[|pool| - 1] in bonded then rest + [pool[|pool| - 1]] else rest
  }

  /** The pairs pushed for the active validators, in order. */
  function StakeTuples(active: seq<Addr>, ds: map<Addr, nat>): (r: seq<StakeTuple>)
    ensures |r| == |active|
  {
    if active == [] then []
    else StakeTuples(active[..|active| - 1], ds) + [(Held(ds, active[|active| - 1]), active[|active| - 1])]
  }

  function FirstWithoutDelegation(active: seq<Addr>, ds: map<Addr, nat>): Option<Addr> {
    if active == [] then None
    else if active[0] !in ds then Some(active[0])
    else FirstWithoutDelegation(active[1..], ds)
  }

  function ValidatorForDeposit(pool: seq<Addr>, bonded: set<Addr>, ds: map<Addr, nat>): Result<Addr> {
    if pool == [] then Err(NoValidatorsInPool)
    else
      var active := Active(pool, bonded);
      match FirstWithoutDelegation(active, ds)
      case Some(v) => Ok(v)
      case None =>
        var sorted := SortTuples(StakeTuples(active, ds));
        if sorted == [] then Err(AllValidatorsJailed) else Ok(sorted[0].1)
  }

  function ActiveValidatorsSortedByStake(pool: seq<Addr>, bonded: set<Addr>, ds: map<Addr, nat>)
    : Result<seq<StakeTuple>>
  {
    if pool == [] then Err(NoValidatorsInPool)
    else
      var tuples := StakeTuples(Active(pool, bonded), ds);
      if tuples == [] then Err(AllValidatorsJailed) else Ok(SortTuples(tuples))
  }

  /** What is taken from which validator, and what is left to find. */
  datatype Plan = Plan(taken: seq<(Addr, nat)>, left: nat)

  /** Takes `amount` from the first `k` tuples, the last of them first. */
  function GreedyPlan(tuples: seq<StakeTuple>, k: nat, amount: nat): Plan
    requires k <= |tuples|
  {
    if k == 0 || amount == 0 then Plan([], amount)
    else
      var take := Min(amount, tuples[k - 1].0);
      var rest := GreedyPlan(tuples, k - 1, amount - take);
      Plan([(tuples[k - 1].1, take)] + rest.taken, rest.left)
  }

  function PlanSum(taken: seq<(Addr, nat)>): nat {
    if taken == [] then 0 else taken[0].1 + PlanSum(taken[1..])
  }
}
