/** What the validator choices guarantee. */
module SelectionProofs {
  import opened Results
  import opened Decimals
  import opened Sums
  import opened Storage
  import opened Selection

  // ---- Sorting ----

  lemma {:induction false} InsertTupleSorts(s: seq<StakeTuple>, x: StakeTuple)
    requires Sorted(s)
    ensures Sorted(InsertTuple(s, x))
    ensures forall t | t in InsertTuple(s, x) :: t == x || t in s
  {
    if s != [] && !Before(s[|s| - 1], x) {
      var front := s[..|s| - 1];
      var rest := InsertTuple(front, x);
      InsertTupleSorts(front, x);
      forall i | 0 <= i < |rest| ensures Before(rest[i], s[|s| - 1]) && (rest[i] == x || rest[i] in s) {
        assert rest[i] in rest;
      }
    }
  }

  lemma {:induction false} InsertTupleElements(s: seq<StakeTuple>, x: StakeTuple)
    ensures multiset(InsertTuple(s, x)) == multiset(s) + multiset{x}
  {
    if s != [] && !Before(s[|s| - 1], x) {
      InsertTupleElements(s[..|s| - 1], x);
      assert s == s[..|s| - 1] + [s[|s| - 1]];
    }
  }

  lemma {:induction false} SortTuplesSorts(s: seq<StakeTuple>)
    ensures Sorted(SortTuples(s))
    ensures multiset(SortTuples(s)) == multiset(s)
  {
    if s != [] {
      var front := s[..|s| - 1];
      SortTuplesSorts(front);
      InsertTupleSorts(SortTuples(front), s[|s| - 1]);
      InsertTupleElements(SortTuples(front), s[|s| - 1]);
      assert s == front + [s[|s| - 1]];
    }
  }

  ghost predicate DistinctAddresses(s: seq<StakeTuple>) {
    forall i, j | 0 <= i < j < |s| :: s[i].1 != s[j].1
  }

  lemma {:induction false} InsertTupleKeepsDistinct(s: seq<StakeTuple>, x: StakeTuple)
    requires DistinctAddresses(s) && forall i | 0 <= i < |s| :: s[i].1 != x.1
    ensures DistinctAddresses(InsertTuple(s, x))
    ensures forall t | t in InsertTuple(s, x) :: t == x || t in s
  {
    if s != [] && !Before(s[|s| - 1], x) {
      var front := s[..|s| - 1];
      InsertTupleKeepsDistinct(front, x);
      forall t | t in InsertTuple(front, x) ensures t.1 != s[|s| - 1].1 && (t == x || t in s) {
        assert t == x || t in front;
      }
    }
  }

  lemma {:induction false} SortTuplesKeepsDistinct(s: seq<StakeTuple>)
    requires DistinctAddresses(s)
    ensures DistinctAddresses(SortTuples(s))
    ensures forall t | t in SortTuples(s) :: t in s
  {
    if s != [] {
      var front := s[..|s| - 1];
      SortTuplesKeepsDistinct(front);
      forall t | t in SortTuples(front) ensures t.1 != s[|s| - 1].1 && t in s {
        assert t in front;
      }
      InsertTupleKeepsDistinct(SortTuples(front), s[|s| - 1]);
    }
  }

  // ---- The active pool ----

  lemma {:induction false} ActiveMembers(pool: seq<Addr>, bonded: set<Addr>)
    ensures forall v :: v in Active(pool, bonded) <==> v in pool && v in bonded
    ensures NoDuplicates(pool) ==> NoDuplicates(Active(pool, bonded))
  {
    if pool != [] {
      ActiveMembers(pool[..|pool| - 1], bonded);
      assert pool == pool[..|pool| - 1] + [pool[|pool| - 1]];
    }
  }

  lemma {:induction false} ActiveSumAtMostPoolSum(pool: seq<Addr>, bonded: set<Addr>, ds: map<Addr, nat>)
    ensures DelegatedSum(Active(pool, bonded), ds) <= DelegatedSum(pool, ds)
  {
    if pool != [] {
      ActiveSumAtMostPoolSum(pool[..|pool| - 1], bonded, ds);
      var rest := Active(pool[..|pool| - 1], bonded);
      assert (rest + [pool[|pool| - 1]])[..|rest|] == rest;
    }
  }

  /** `s` lists the active validators with their delegations. */
  ghost predicate TuplesOf(s: seq<StakeTuple>, active: seq<Addr>, ds: map<Addr, nat>) {
    && (forall i | 0 <= i < |s| :: s[i].0 == Held(ds, s[i].1) && s[i].1 in active)
    && (forall v | v in active :: (Held(ds, v), v) in s)
  }

  lemma {:induction false} StakeTuplesAt(active: seq<Addr>, ds: map<Addr, nat>)
    ensures forall i | 0 <= i < |active| :: StakeTuples(active, ds)[i] == (Held(ds, active[i]), active[i])
  {
    if active != [] {
      StakeTuplesAt(active[..|active| - 1], ds);
    }
  }

  lemma SortedActiveTuples(active: seq<Addr>, ds: map<Addr, nat>)
    ensures var s := SortTuples(StakeTuples(active, ds));
      Sorted(s) && TuplesOf(s, active, ds) && (NoDuplicates(active) ==> DistinctAddresses(s))
  {
    hide SortTuples, StakeTuples, Sorted;
    var t := StakeTuples(active, ds);
    var s := SortTuples(t);
    SortTuplesSorts(t);
    StakeTuplesAt(active, ds);
    forall i | 0 <= i < |s| ensures s[i].0 == Held(ds, s[i].1) && s[i].1 in active {
      assert s[i] in multiset(t);
    }
    forall v | v in active ensures (Held(ds, v), v) in s {
      var i :| 0 <= i < |active| && active[i] == v;
      assert t[i] in multiset(s);
    }
    if NoDuplicates(active) {
      SortTuplesKeepsDistinct(t);
    }
  }

  // ---- Where a deposit goes ----

  lemma {:induction false} FirstWithoutDelegationIs(active: seq<Addr>, ds: map<Addr, nat>)
    ensures match FirstWithoutDelegation(active, ds)
            case Some(v) => v in active && v !in ds
            case None => forall v | v in active :: v in ds
  {
    if active != [] && active[0] in ds {
      FirstWithoutDelegationIs(active[1..], ds);
      assert active == [active[0]] + active[1..];
    }
  }

  lemma FirstTupleIsLeast(s: seq<StakeTuple>, active: seq<Addr>, ds: map<Addr, nat>)
    requires Sorted(s) && TuplesOf(s, active, ds)
    ensures s == [] <==> active == []
    ensures s != [] ==> s[0].1 in active && forall v | v in active :: Held(ds, s[0].1) <= Held(ds, v)
  {
    if active != [] {
      assert (Held(ds, active[0]), active[0]) in s;
    }
    if s != [] {
      assert s[0] in s && s[0].1 in active;
      forall v | v in active ensures Held(ds, s[0].1) <= Held(ds, v) {
        var i :| 0 <= i < |s| && s[i] == (Held(ds, v), v);
      }
    }
  }

  /** A deposit goes to an active pool member with the least delegation, a missing delegation counting as zero. It
      fails only when the pool is empty or none of its members is active. */
  lemma DepositGoesToLeastDelegated(pool: seq<Addr>, bonded: set<Addr>, ds: map<Addr, nat>)
    ensures var r := ValidatorForDeposit(pool, bonded, ds);
      && (r.Ok? <==> exists v :: v in pool && v in bonded)
      && (r.Ok? ==>
            && r.value in pool && r.value in bonded
            && forall u | u in pool && u in bonded :: Held(ds, r.value) <= Held(ds, u))
      && (r == Err(NoValidatorsInPool) <==> pool == [])
  {
    hide SortTuples, StakeTuples, Active, FirstWithoutDelegation, Sorted, TuplesOf, DistinctAddresses, NoDuplicates;
    var active := Active(pool, bonded);
    ActiveMembers(pool, bonded);
    FirstWithoutDelegationIs(active, ds);
    if pool != [] && FirstWithoutDelegation(active, ds).None? {
      SortedActiveTuples(active, ds);
      FirstTupleIsLeast(SortTuples(StakeTuples(active, ds)), active, ds);
    }
  }

  // ---- The greedy undelegation ----

  /** The stake of the first `k` tuples. */
  function SumBelow(s: seq<StakeTuple>, k: nat): nat
    requires k <= |s|
  {
    if k == 0 then 0 else SumBelow(s, k - 1) + s[k - 1].0
  }

  lemma {:induction false} SumBelowPrefix(s: seq<StakeTuple>, t: seq<StakeTuple>, k: nat)
    requires k <= |s| && k <= |t| && forall i | 0 <= i < k :: s[i] == t[i]
    ensures SumBelow(s, k) == SumBelow(t, k)
  {
    if k > 0 {
      SumBelowPrefix(s, t, k - 1);
    }
  }

  lemma {:induction false} SumBelowMonotone(s: seq<StakeTuple>, j: nat, k: nat)
    requires j <= k <= |s|
    ensures SumBelow(s, j) <= SumBelow(s, k)
  {
    if j < k {
      SumBelowMonotone(s, j, k - 1);
    }
  }

  /** The stake of those of the first `k` tuples whose validator is in `vs`, and how many they are. */
  function SumWithin(s: seq<StakeTuple>, k: nat, vs: set<Addr>): nat
    requires k <= |s|
  {
    if k == 0 then 0 else SumWithin(s, k - 1, vs) + if s[k - 1].1 in vs then s[k - 1].0 else 0
  }

  function CountWithin(s: seq<StakeTuple>, k: nat, vs: set<Addr>): (c: nat)
    requires k <= |s|
    ensures c <= k
  {
    if k == 0 then 0 else CountWithin(s, k - 1, vs) + if s[k - 1].1 in vs then 1 else 0
  }

  lemma {:induction false} SumWithinPrefix(s: seq<StakeTuple>, t: seq<StakeTuple>, k: nat, vs: set<Addr>)
    requires k <= |s| && k <= |t| && forall i | 0 <= i < k :: s[i] == t[i]
    ensures SumWithin(s, k, vs) == SumWithin(t, k, vs)
  {
    if k > 0 {
      SumWithinPrefix(s, t, k - 1, vs);
    }
  }

  lemma {:induction false} SumWithinAll(s: seq<StakeTuple>, k: nat, vs: set<Addr>)
    requires k <= |s| && forall i | 0 <= i < k :: s[i].1 in vs
    ensures SumWithin(s, k, vs) == SumBelow(s, k)
  {
    if k > 0 {
      SumWithinAll(s, k - 1, vs);
    }
  }

  lemma {:induction false} InsertTupleSum(s: seq<StakeTuple>, x: StakeTuple, vs: set<Addr>)
    ensures SumWithin(InsertTuple(s, x), |s| + 1, vs) == SumWithin(s, |s|, vs) + if x.1 in vs then x.0 else 0
  {
    var r := InsertTuple(s, x);
    if s == [] || Before(s[|s| - 1], x) {
      SumWithinPrefix(r, s, |s|, vs);
    } else {
      var front := s[..|s| - 1];
      InsertTupleSum(front, x, vs);
      SumWithinPrefix(r, InsertTuple(front, x), |s|, vs);
      SumWithinPrefix(s, front, |s| - 1, vs);
    }
  }

  lemma {:induction false} SortTuplesSum(s: seq<StakeTuple>, vs: set<Addr>)
    ensures SumWithin(SortTuples(s), |s|, vs) == SumWithin(s, |s|, vs)
  {
    if s != [] {
      var front := s[..|s| - 1];
      SortTuplesSum(front, vs);
      InsertTupleSum(SortTuples(front), s[|s| - 1], vs);
      SumWithinPrefix(s, front, |s| - 1, vs);
    }
  }

  lemma {:induction false} StakeTuplesSum(active: seq<Addr>, ds: map<Addr, nat>)
    ensures SumBelow(StakeTuples(active, ds), |active|) == DelegatedSum(active, ds)
  {
    if active != [] {
      var front := active[..|active| - 1];
      StakeTuplesSum(front, ds);
      SumBelowPrefix(StakeTuples(active, ds), StakeTuples(front, ds), |front|);
    }
  }

  lemma SortedTuplesSum(active: seq<Addr>, ds: map<Addr, nat>)
    ensures SumBelow(SortTuples(StakeTuples(active, ds)), |active|) == DelegatedSum(active, ds)
  {
    hide SortTuples, StakeTuples, Sorted;
    var t := StakeTuples(active, ds);
    var all := set v | v in active;
    SortedActiveTuples(active, ds);
    StakeTuplesAt(active, ds);
    StakeTuplesSum(active, ds);
    SortTuplesSum(t, all);
    SumWithinAll(t, |t|, all);
    SumWithinAll(SortTuples(t), |t|, all);
  }

  /** How much a plan takes, and when it finds everything. */
  lemma {:induction false} GreedyPlanSum(s: seq<StakeTuple>, k: nat, amount: nat)
    requires k <= |s|
    ensures var p := GreedyPlan(s, k, amount);
      && PlanSum(p.taken) + p.left == amount
      && (p.left == 0 <==> amount <= SumBelow(s, k))
      && |p.taken| <= k
      && (p.taken != [] ==> SumBelow(s, k) < amount + SumBelow(s, k - |p.taken| + 1))
  {
    if k > 0 && amount > 0 {
      var take := Min(amount, s[k - 1].0);
      var rest := GreedyPlan(s, k - 1, amount - take);
      GreedyPlanSum(s, k - 1, amount - take);
      assert GreedyPlan(s, k, amount).taken[1..] == rest.taken;
    }
  }

  /** What a plan takes from each tuple. */
  lemma {:induction false} GreedyPlanTakes(s: seq<StakeTuple>, k: nat, amount: nat)
    requires k <= |s| && Sorted(s)
    ensures var p := GreedyPlan(s, k, amount); var c := |p.taken|;
      && c <= k
      && (forall i | 0 <= i < c :: p.taken[i].0 == s[k - 1 - i].1 && p.taken[i].1 <= s[k - 1 - i].0)
      && (forall i | 0 <= i < c - 1 :: p.taken[i].1 == s[k - 1 - i].0)
      && (p.left == 0 ==> forall i | 0 <= i < c :: p.taken[i].1 > 0)
  {
    if k > 0 && amount > 0 {
      var take := Min(amount, s[k - 1].0);
      var rest := GreedyPlan(s, k - 1, amount - take);
      GreedyPlanTakes(s, k - 1, amount - take);
      if rest.taken != [] {
        assert rest.taken[0].1 <= s[k - 2].0;
        assert Before(s[k - 2], s[k - 1]);
      }
    }
  }

  lemma {:induction false} CountWithinLess(s: seq<StakeTuple>, k: nat, vs: set<Addr>, v: Addr)
    requires k <= |s| && forall i | 0 <= i < k :: s[i].1 != v
    ensures CountWithin(s, k, vs - {v}) == CountWithin(s, k, vs)
  {
    if k > 0 {
      CountWithinLess(s, k - 1, vs, v);
    }
  }

  lemma {:induction false} CountWithinAtMost(s: seq<StakeTuple>, k: nat, vs: set<Addr>)
    requires k <= |s| && DistinctAddresses(s)
    ensures CountWithin(s, k, vs) <= |vs|
  {
    if k > 0 {
      var last := s[k - 1].1;
      CountWithinLess(s, k - 1, vs, last);
      CountWithinAtMost(s, k - 1, vs - {last});
    }
  }

  /** The tuples of a set of validators weigh no more than as many of the largest tuples. */
  lemma {:induction false} LargestAreHeaviest(s: seq<StakeTuple>, k: nat, vs: set<Addr>)
    requires k <= |s| && Sorted(s)
    ensures SumWithin(s, k, vs) + SumBelow(s, k - CountWithin(s, k, vs)) <= SumBelow(s, k)
  {
    if k > 0 {
      LargestAreHeaviest(s, k - 1, vs);
      var m := k - CountWithin(s, k, vs);
      if s[k - 1].1 !in vs {
        assert m < k ==> Before(s[m - 1], s[k - 1]);
      }
    }
  }

  /** The undelegation loop finds the amount if and only if the active pool members hold it; it then emits positive
      amounts, each within the validator's delegation, that add up exactly to the amount and drain every validator
      but the last. */
  lemma GreedyIsExact(pool: seq<Addr>, bonded: set<Addr>, ds: map<Addr, nat>, amount: nat)
    requires ActiveValidatorsSortedByStake(pool, bonded, ds).Ok?
    ensures var s := ActiveValidatorsSortedByStake(pool, bonded, ds).value; var plan := GreedyPlan(s, |s|, amount);
      && (plan.left == 0 <==> amount <= DelegatedSum(Active(pool, bonded), ds))
      && PlanSum(plan.taken) + plan.left == amount
      && (forall i | 0 <= i < |plan.taken| ::
            && plan.taken[i].0 in pool && plan.taken[i].0 in bonded
            && plan.taken[i].1 <= Held(ds, plan.taken[i].0)
            && (plan.left == 0 ==> 0 < plan.taken[i].1)
            && (i < |plan.taken| - 1 ==> plan.taken[i].1 == Held(ds, plan.taken[i].0)))
  {
    var active := Active(pool, bonded);
    var s := ActiveValidatorsSortedByStake(pool, bonded, ds).value;
    ActiveMembers(pool, bonded);
    SortedActiveTuples(active, ds);
    SortedTuplesSum(active, ds);
    GreedyPlanSum(s, |s|, amount);
    GreedyPlanTakes(s, |s|, amount);
  }

  /** The stake delegated to those pool members that are in `vs`. */
  function StakeHeldBy(pool: seq<Addr>, vs: set<Addr>, ds: map<Addr, nat>): nat {
    if pool == [] then 0
    else StakeHeldBy(pool[..|pool| - 1], vs, ds)
         + if pool[|pool| - 1] in vs then Held(ds, pool[|pool| - 1]) else 0
  }

  lemma {:induction false} StakeTuplesWithin(active: seq<Addr>, vs: set<Addr>, ds: map<Addr, nat>)
    ensures SumWithin(StakeTuples(active, ds), |active|, vs) == StakeHeldBy(active, vs, ds)
  {
    if active != [] {
      var front := active[..|active| - 1];
      StakeTuplesWithin(front, vs, ds);
      SumWithinPrefix(StakeTuples(active, ds), StakeTuples(front, ds), |front|, vs);
    }
  }

  /** The loop is also minimal: it undelegates from distinct validators, and no smaller set of validators holds the
      amount among the active pool members. */
  lemma GreedyIsMinimal(pool: seq<Addr>, bonded: set<Addr>, ds: map<Addr, nat>, amount: nat, vs: set<Addr>)
    requires NoDuplicates(pool)
    requires ActiveValidatorsSortedByStake(pool, bonded, ds).Ok?
    requires amount <= StakeHeldBy(Active(pool, bonded), vs, ds)
    ensures var s := ActiveValidatorsSortedByStake(pool, bonded, ds).value; var plan := GreedyPlan(s, |s|, amount);
      && plan.left == 0
      && |plan.taken| <= |vs|
      && (forall i, j | 0 <= i < j < |plan.taken| :: plan.taken[i].0 != plan.taken[j].0)
  {
    hide SortTuples, StakeTuples, GreedyPlan, Active;
    var active := Active(pool, bonded);
    var t := StakeTuples(active, ds);
    var s := SortTuples(t);
    ActiveMembers(pool, bonded);
    SortedActiveTuples(active, ds);
    StakeTuplesWithin(active, vs, ds);
    SortTuplesSum(t, vs);
    LargestAreHeaviest(s, |s|, vs);
    CountWithinAtMost(s, |s|, vs);
    FewestTuples(s, amount, CountWithin(s, |s|, vs));
    GreedyPlanTakes(s, |s|, amount);
  }

  lemma FewestTuples(s: seq<StakeTuple>, amount: nat, m: nat)
    requires m <= |s| && amount + SumBelow(s, |s| - m) <= SumBelow(s, |s|)
    ensures var plan := GreedyPlan(s, |s|, amount); plan.left == 0 && |plan.taken| <= m
  {
    GreedyPlanSum(s, |s|, amount);
    var c := |GreedyPlan(s, |s|, amount).taken|;
    if m < c {
      SumBelowMonotone(s, |s| - c + 1, |s| - m);
    }
  }
}
