/** Every outstanding claim can be paid, and all of them in any order. */
module Withdrawals {
  import opened Decimals
  import opened Sums
  import opened Storage
  import opened Handlers
  import opened Messages
  import opened Machine
  import opened Claims
  import opened Effects
  import opened Ledger
  import opened LedgerSteps
  import opened Solvency

  /** If the product of the batch's tokens and rate fitted in 128 bits, none of the three products of a claim on the
      batch can overflow. */
  lemma ClaimCannotOverflow(batchTokens: nat, tokens: nat, rate: nat, ratio: nat, fee: nat)
    requires tokens <= batchTokens && batchTokens * rate < U128_LIMIT && ratio <= ONE && fee <= WITHDRAW_FEE_CAP
    ensures MultiplyU128WithDecimal(tokens, rate).Ok?
    ensures MultiplyU128WithDecimal(MulFloor(tokens, rate), ratio).Ok?
    ensures MultiplyU128WithDecimal(Claim(tokens, rate, ratio), fee).Ok?
  {
    var undelegated := MulFloor(tokens, rate);
    MulMonotone(tokens, batchTokens, rate, rate);
    FloorBounds(tokens * rate, ONE);
    MulMonotone(undelegated, undelegated, ratio, ONE);
    MulFloorAtMost(undelegated, ratio);
    MulMonotone(Claim(tokens, rate, ratio), undelegated, fee, ONE);
  }

  /** A record of a reconciled batch can always be priced. */
  lemma ClaimIsComputable(s: Store, withdrawn: map<BatchId, nat>, user: Addr, id: BatchId)
    requires ConfigOk(s.config) && LedgerOk(s, withdrawn)
    requires (user, id) in s.users && id <= s.state.lastReconciledBatchId
    ensures ComputeWithdrawableFunds(s, id, user).Ok?
    ensures var c := ComputeWithdrawableFunds(s, id, user).value; var claim := RecordClaim(s, (user, id));
      && c.protocolFee == MulFloor(claim, s.config.protocolWithdrawFee)
      && c.userWithdrawalAmount == claim - c.protocolFee
      && c.undelegatedTokens == s.users[(user, id)].tokenAmount
  {
    hide MulFloor, BatchTokens, Outstanding;
    var b := s.batches[id];
    var tokens := s.users[(user, id)].tokenAmount;
    RecordAtMostBatch(s.users, (user, id));
    ClaimCannotOverflow(b.undelegatedTokens, tokens, b.undelegationEr, b.unbondingSlashingRatio,
                        s.config.protocolWithdrawFee);
    MulFloorAtMost(RecordClaim(s, (user, id)), s.config.protocolWithdrawFee);
  }

  lemma SendOne(ch: Chain, to: Addr, amount: nat)
    requires amount <= Held(ch.luna, SELF)
    ensures var r := ExecuteAll(ch, SendMessages(to, amount));
      r.Ok? && r.value == ch.(luna := r.value.luna) && Moved(ch.luna, r.value.luna, SELF, to, amount)
  {
    var ms := SendMessages(to, amount);
    if ms != [] {
      assert ms[1..] == [];
    }
  }

  lemma SendTwo(ch: Chain, to: Addr, amount: nat, feeTo: Addr, fee: nat)
    requires amount + fee <= Held(ch.luna, SELF)
    ensures var r := ExecuteAll(ch, SendMessages(to, amount) + SendMessages(feeTo, fee));
      && r.Ok?
      && r.value == ch.(luna := r.value.luna)
      && forall a :: Held(r.value.luna, a) + (if a == SELF then amount + fee else 0)
                     == Held(ch.luna, a) + (if a == to then amount else 0) + if a == feeTo then fee else 0
  {
    hide ExecuteAll, SendMessages;
    ExecuteAppend(ch, SendMessages(to, amount), SendMessages(feeTo, fee));
    SendOne(ch, to, amount);
    var mid := ExecuteAll(ch, SendMessages(to, amount)).value;
    assert Held(mid.luna, SELF) >= Held(ch.luna, SELF) - amount;
    SendOne(mid, feeTo, fee);
  }

  /** The record `k` is live, its batch is reconciled and withdrawing is not paused. */
  predicate Payable(w: World, k: (Addr, BatchId)) {
    !w.store.controls.withdrawPaused && k in w.store.users && k.1 <= w.store.state.lastReconciledBatchId
  }

  /** What `a` receives when the record `k` is paid: the claim less the fee as its owner, the fee as the fee contract. */
  function Receipt(s: Store, k: (Addr, BatchId), a: Addr): nat
    requires k in s.users
  {
    var claim := RecordClaim(s, k);
    var fee := MulFloor(claim, s.config.protocolWithdrawFee);
    (if a == k.0 then SaturatingSub(claim, fee) else 0) + if a == s.config.protocolFeeContract then fee else 0
  }

  /** Every claim on a reconciled batch can be paid at any time (while withdrawing is not paused). The user gets the
      claim less the fee, the fee contract the fee, and nobody else anything; the record disappears; and the slack
      between the reconciled funds and the outstanding claims is exactly what it was. */
  lemma WithdrawalSucceeds(w: World, user: Addr, id: BatchId)
    requires WorldOk(w) && Payable(w, (user, id))
    ensures Transact(w, user, [], CallWithdraw(id)).Ok?
    ensures var t := Transact(w, user, [], CallWithdraw(id)).value;
      var claim := RecordClaim(w.store, (user, id));
      && t.store == w.store.(users := w.store.users - {(user, id)},
                             state := w.store.state.(
                               reconciledFundsToWithdraw := t.store.state.reconciledFundsToWithdraw))
      && t.store.state.reconciledFundsToWithdraw + claim == w.store.state.reconciledFundsToWithdraw
      && OutstandingClaims(t.store) + claim == OutstandingClaims(w.store)
      && MulFloor(claim, w.store.config.protocolWithdrawFee) <= claim
      && forall a :: Held(t.chain.luna, a) + (if a == SELF then claim else 0)
                     == Held(w.chain.luna, a) + Receipt(w.store, (user, id), a)
  {
    hide MulFloor, OutstandingClaims, TokensAddUp, ExecuteAll, Claim, ComputeWithdrawableFunds;
    var s := w.store;
    var call := CallWithdraw(id);
    ClaimIsComputable(s, w.withdrawn, user, id);
    AttachNothing(w.chain, user, call);
    var before := Attach(w.chain, user, [], call).value;
    WithdrawEffect(s, user, id);
    var r := WithdrawFundsToWallet(s, user, id).value;
    var c := ComputeWithdrawableFunds(s, id, user).value;
    WithdrawPaysClaim(s, r.store, w.withdrawn, user, id, c.userWithdrawalAmount, c.protocolFee);
    SendTwo(before, user, c.userWithdrawalAmount, s.config.protocolFeeContract, c.protocolFee);
  }

  lemma AttachNothing(ch: Chain, sender: Addr, call: Call)
    requires !call.CallQueueUndelegation?
    ensures Attach(ch, sender, [], call).Ok?
    ensures var before := Attach(ch, sender, [], call).value;
      before == ch.(luna := before.luna) && forall a :: Held(before.luna, a) == Held(ch.luna, a)
  {
  }

  // ---- All claims, in any order ----

  function WithdrawAll(ks: seq<(Addr, BatchId)>): seq<Event> {
    if ks == [] then [] else [Tx(ks[0].0, [], CallWithdraw(ks[0].1))] + WithdrawAll(ks[1..])
  }

  function SumOfClaims(s: Store, ks: seq<(Addr, BatchId)>): nat
    requires forall i | 0 <= i < |ks| :: ks[i] in s.users
  {
    if ks == [] then 0 else RecordClaim(s, ks[0]) + SumOfClaims(s, ks[1..])
  }

  function SumOfReceipts(s: Store, ks: seq<(Addr, BatchId)>, a: Addr): nat
    requires forall i | 0 <= i < |ks| :: ks[i] in s.users
  {
    if ks == [] then 0 else Receipt(s, ks[0], a) + SumOfReceipts(s, ks[1..], a)
  }

  ghost predicate SameRecords(s: Store, t: Store, ks: seq<(Addr, BatchId)>) {
    && t.batches == s.batches && t.config == s.config
    && forall i | 0 <= i < |ks| :: ks[i] in s.users && ks[i] in t.users && t.users[ks[i]] == s.users[ks[i]]
  }

  lemma {:induction false} SumOfClaimsFrame(s: Store, t: Store, ks: seq<(Addr, BatchId)>, a: Addr)
    requires SameRecords(s, t, ks)
    ensures SumOfClaims(t, ks) == SumOfClaims(s, ks) && SumOfReceipts(t, ks, a) == SumOfReceipts(s, ks, a)
  {
    if ks != [] {
      SumOfClaimsFrame(s, t, ks[1..], a);
    }
  }

  ghost predicate DistinctRecords(ks: seq<(Addr, BatchId)>) {
    forall i, j | 0 <= i < j < |ks| :: ks[i] != ks[j]
  }

  ghost predicate AllPayable(w: World, ks: seq<(Addr, BatchId)>) {
    forall i | 0 <= i < |ks| :: Payable(w, ks[i])
  }

  lemma WithdrawalStep(w: World, ks: seq<(Addr, BatchId)>)
    requires WorldOk(w) && ks != [] && AllPayable(w, ks) && DistinctRecords(ks)
    ensures var w1 := Step(w, Tx(ks[0].0, [], CallWithdraw(ks[0].1)));
      && WorldOk(w1) && AllPayable(w1, ks[1..]) && DistinctRecords(ks[1..])
      && w1.store.users == w.store.users - {ks[0]}
      && w1.store.state.reconciledFundsToWithdraw + RecordClaim(w.store, ks[0])
         == w.store.state.reconciledFundsToWithdraw
      && OutstandingClaims(w1.store) + RecordClaim(w.store, ks[0]) == OutstandingClaims(w.store)
      && SameRecords(w.store, w1.store, ks[1..])
      && (forall a :: Held(w1.chain.luna, a) + (if a == SELF then RecordClaim(w.store, ks[0]) else 0)
                      == Held(w.chain.luna, a) + Receipt(w.store, ks[0], a))
  {
    hide WorldOk, OutstandingClaims, Transact, RecordClaim, MulFloor;
    var e := Tx(ks[0].0, [], CallWithdraw(ks[0].1));
    assert Payable(w, ks[0]);
    OwnerIsExternal(w, ks[0]);
    WithdrawalSucceeds(w, ks[0].0, ks[0].1);
    StepKeepsWorldOk(w, e);
  }

  lemma OwnerIsExternal(w: World, k: (Addr, BatchId))
    requires WorldOk(w) && k in w.store.users
    ensures External(k.0)
  {
  }

  /** Any selection of claims on reconciled batches can be withdrawn in any order: all of them are paid in full, and
      every account ends up with what it had and what is paid to it, the contract with that much less. */
  lemma {:induction false} ClaimsPaidInAnyOrder(w: World, ks: seq<(Addr, BatchId)>, a: Addr)
    requires WorldOk(w) && AllPayable(w, ks) && DistinctRecords(ks)
    ensures var end := Run(w, WithdrawAll(ks));
      && end.store.users == w.store.users - (set k | k in ks)
      && end.store.state.reconciledFundsToWithdraw + SumOfClaims(w.store, ks)
         == w.store.state.reconciledFundsToWithdraw
      && OutstandingClaims(end.store) + SumOfClaims(w.store, ks) == OutstandingClaims(w.store)
      && Held(end.chain.luna, a) + (if a == SELF then SumOfClaims(w.store, ks) else 0)
         == Held(w.chain.luna, a) + SumOfReceipts(w.store, ks, a)
    decreases |ks|
  {
    hide WorldOk, OutstandingClaims, Step, RecordClaim, Receipt, DistinctRecords;
    if ks == [] {
      assert w.store.users - (set k | k in ks) == w.store.users;
    } else {
      var rest := ks[1..];
      var w1 := Step(w, Tx(ks[0].0, [], CallWithdraw(ks[0].1)));
      WithdrawalStep(w, ks);
      SumOfClaimsFrame(w.store, w1.store, rest, a);
      ClaimsPaidInAnyOrder(w1, rest, a);
      assert WithdrawAll(ks)[1..] == WithdrawAll(rest);
      assert (set k | k in ks) == {ks[0]} + (set k | k in rest) by {
        assert ks == [ks[0]] + rest;
      }
    }
  }
}
