/** Balance sheets: maps from accounts to amounts, their totals, and movements between accounts. */
module Sums {
  import opened Results

  /** The amount held by `a`; an account without an entry holds nothing. */
  function Held<K(==)>(m: map<K, nat>, a: K): nat {
    if a in m then m[a] else 0
  }

  function Credit<K(==)>(m: map<K, nat>, a: K, amount: nat): map<K, nat> {
    m[a := Held(m, a) + amount]
  }

  /** Takes `amount` from `a`, dropping the entry once it is empty. */
  function Debit<K(==)>(m: map<K, nat>, a: K, amount: nat): Result<map<K, nat>> {
    if Held(m, a) < amount then Err(InSufficientFunds)
    else if Held(m, a) == amount then Ok(m - {a})
    else Ok(m[a := Held(m, a) - amount])
  }

  function Move<K(==)>(m: map<K, nat>, from: K, to: K, amount: nat): Result<map<K, nat>> {
    var rest :- Debit(m, from, amount);
    Ok(Credit(rest, to, amount))
  }

  ghost function Total<K>(m: map<K, nat>): nat {
    if m == map[] then 0
    else
      var k :| k in m;
      m[k] + Total(m - {k})
  }

  lemma {:induction false} TotalPick<K>(m: map<K, nat>, k: K)
    requires k in m
    ensures Total(m) == m[k] + Total(m - {k})
    decreases |m|
  {
    var c :| c in m && Total(m) == m[c] + Total(m - {c});
    if c != k {
      TotalPick(m - {c}, k);
      TotalPick(m - {k}, c);
      assert m - {c} - {k} == m - {k} - {c};
    }
  }

  lemma TotalUpdate<K>(m: map<K, nat>, k: K, n: nat)
    ensures Total(m[k := n]) + Held(m, k) == Total(m) + n
  {
    TotalPick(m[k := n], k);
    if k in m {
      TotalPick(m, k);
      assert m[k := n] - {k} == m - {k};
    } else {
      assert m[k := n] - {k} == m;
    }
  }

  lemma TotalCredit<K>(m: map<K, nat>, a: K, amount: nat)
    ensures Total(Credit(m, a, amount)) == Total(m) + amount
  {
    TotalUpdate(m, a, Held(m, a) + amount);
  }

  lemma TotalDebit<K>(m: map<K, nat>, a: K, amount: nat)
    requires amount <= Held(m, a)
    ensures Total(Debit(m, a, amount).value) + amount == Total(m)
  {
    if a in m {
      TotalPick(m, a);
      if m[a] != amount {
        TotalUpdate(m, a, m[a] - amount);
      }
    } else {
      assert m - {a} == m;
    }
  }

  lemma TotalMove<K>(m: map<K, nat>, from: K, to: K, amount: nat)
    requires amount <= Held(m, from)
    ensures Total(Move(m, from, to, amount).value) == Total(m)
  {
    TotalDebit(m, from, amount);
    TotalCredit(Debit(m, from, amount).value, to, amount);
  }

  /** `amount` went from `from` to `to`, and nothing else moved. */
  ghost predicate Moved<K(!new)>(m: map<K, nat>, n: map<K, nat>, from: K, to: K, amount: nat) {
    forall a :: Held(n, a) + (if a == from then amount else 0) == Held(m, a) + if a == to then amount else 0
  }

  lemma MoveMoves<K(!new)>(m: map<K, nat>, from: K, to: K, amount: nat)
    ensures Move(m, from, to, amount).Ok? <==> amount <= Held(m, from)
    ensures amount <= Held(m, from) ==> Moved(m, Move(m, from, to, amount).value, from, to, amount)
  {
  }

  lemma HeldAtMostTotal<K>(m: map<K, nat>, a: K)
    ensures Held(m, a) <= Total(m)
  {
    if a in m {
      TotalPick(m, a);
    }
  }
}
