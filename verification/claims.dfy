/** Claims on a batch, and how the rounding of many small claims compares with the rounding of the whole. */
module Claims {
  import opened Decimals
  import opened Sums
  import opened Storage

  /** The pre-fee claim of `tokens` undelegated at `rate` when `ratio` of the stake came back. */
  function Claim(tokens: nat, rate: nat, ratio: nat): nat {
    MulFloor(MulFloor(tokens, rate), ratio)
  }

  /** Splitting tokens between two records loses at most two units and gains none. */
  lemma ClaimSplit(s: nat, t: nat, rate: nat, ratio: nat)
    requires ratio <= ONE
    ensures Claim(s, rate, ratio) + Claim(t, rate, ratio) <= Claim(s + t, rate, ratio)
    ensures Claim(s + t, rate, ratio) <= Claim(s, rate, ratio) + Claim(t, rate, ratio) + 2
  {
    var x, y, z := MulFloor(s, rate), MulFloor(t, rate), MulFloor(s + t, rate);
    MulFloorSplit(s, t, rate);
    MulFloorSplit(x, y, ratio);
    MulFloorMonotone(x + y, z, ratio, ratio);
    if ratio < ONE {
      MulFloorSplit(x + y, 1, ratio);
      MulFloorMonotone(z, x + y + 1, ratio, ratio);
      assert MulFloor(1, ratio) == 0;
    } else {
      MulFloorOne(x);
      MulFloorOne(y);
      MulFloorOne(z);
    }
  }

  /** The claims of all records of `m`. */
  ghost function ClaimMap<K>(m: map<K, nat>, rate: nat, ratio: nat): map<K, nat> {
    map k | k in m :: Claim(m[k], rate, ratio)
  }

  ghost function TotalClaims<K>(m: map<K, nat>, rate: nat, ratio: nat): nat {
    Total(ClaimMap(m, rate, ratio))
  }

  lemma TotalClaimsPick<K>(m: map<K, nat>, k: K, rate: nat, ratio: nat)
    requires k in m
    ensures TotalClaims(m, rate, ratio) == Claim(m[k], rate, ratio) + TotalClaims(m - {k}, rate, ratio)
  {
    TotalPick(ClaimMap(m, rate, ratio), k);
    assert ClaimMap(m, rate, ratio) - {k} == ClaimMap(m - {k}, rate, ratio);
  }

  lemma TotalClaimsEmpty<K>(rate: nat, ratio: nat)
    ensures TotalClaims<K>(map[], rate, ratio) == 0
  {
    assert ClaimMap<K>(map[], rate, ratio) == map[];
  }

  /** All records together claim no more than their tokens would in one record. */
  lemma {:induction false} TotalClaimsAtMost<K>(m: map<K, nat>, rate: nat, ratio: nat)
    requires ratio <= ONE
    ensures TotalClaims(m, rate, ratio) <= Claim(Total(m), rate, ratio)
    decreases |m|
  {
    if m == map[] {
      TotalClaimsEmpty<K>(rate, ratio);
    } else {
      var k :| k in m;
      TotalClaimsAtMost(m - {k}, rate, ratio);
      TotalPick(m, k);
      TotalClaimsPick(m, k, rate, ratio);
      ClaimSplit(m[k], Total(m - {k}), rate, ratio);
    }
  }

  /** And less by at most two for every record but the first. */
  lemma {:induction false} TotalClaimsAtLeast<K>(m: map<K, nat>, rate: nat, ratio: nat)
    requires ratio <= ONE && m != map[]
    ensures Claim(Total(m), rate, ratio) <= TotalClaims(m, rate, ratio) + 2 * (|m| - 1)
    decreases |m|
  {
    var k :| k in m;
    var rest := m - {k};
    TotalPick(m, k);
    TotalClaimsPick(m, k, rate, ratio);
    if rest == map[] {
      TotalClaimsEmpty<K>(rate, ratio);
    } else {
      TotalClaimsAtLeast(rest, rate, ratio);
      ClaimSplit(m[k], Total(rest), rate, ratio);
    }
  }

  // ---- The records of one batch ----

  type UserMap = map<(Addr, BatchId), UndelegationInfo>

  ghost function Slice(users: UserMap, id: BatchId): map<(Addr, BatchId), nat> {
    map k | k in users && k.1 == id :: users[k].tokenAmount
  }

  ghost function BatchTokens(users: UserMap, id: BatchId): nat {
    Total(Slice(users, id))
  }

  ghost function BatchClaims(users: UserMap, id: BatchId, b: Batch): nat {
    TotalClaims(Slice(users, id), b.undelegationEr, b.unbondingSlashingRatio)
  }

  lemma RemoveRecord(users: UserMap, k: (Addr, BatchId), b: Batch)
    requires k in users
    ensures BatchTokens(users, k.1) == users[k].tokenAmount + BatchTokens(users - {k}, k.1)
    ensures BatchClaims(users, k.1, b)
         == Claim(users[k].tokenAmount, b.undelegationEr, b.unbondingSlashingRatio) + BatchClaims(users - {k}, k.1, b)
    ensures forall id | id != k.1 :: Slice(users - {k}, id) == Slice(users, id)
  {
    var m := Slice(users, k.1);
    TotalPick(m, k);
    TotalClaimsPick(m, k, b.undelegationEr, b.unbondingSlashingRatio);
    assert Slice(users - {k}, k.1) == m - {k};
  }

  lemma UpdateRecord(users: UserMap, k: (Addr, BatchId), info: UndelegationInfo, amount: nat)
    requires info.tokenAmount == (if k in users then users[k].tokenAmount else 0) + amount
    ensures BatchTokens(users[k := info], k.1) == BatchTokens(users, k.1) + amount
    ensures forall id | id != k.1 :: Slice(users[k := info], id) == Slice(users, id)
  {
    var m := Slice(users, k.1);
    assert Slice(users[k := info], k.1) == m[k := info.tokenAmount];
    TotalUpdate(m, k, info.tokenAmount);
  }

  lemma RecordAtMostBatch(users: UserMap, k: (Addr, BatchId))
    requires k in users
    ensures users[k].tokenAmount <= BatchTokens(users, k.1)
  {
    HeldAtMostTotal(Slice(users, k.1), k);
  }

  lemma NoRecords(users: UserMap, id: BatchId)
    requires forall k | k in users :: k.1 != id
    ensures Slice(users, id) == map[] && BatchTokens(users, id) == 0
  {
    assert Slice(users, id) == map[];
  }
}
