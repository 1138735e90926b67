/**
 Ledgers and multi-transfer transactions, as the two funding benches use them.

 A transaction pays equal amounts from one source to several keys (`transfer_many`). It applies all
 its transfers or none; a fee is charged whenever the source can pay it.
 */
module Transfers {
  import opened Collections

  type Key = nat
  type Ledger = map<Key, nat>

  /** `get_balance(..).unwrap_or(0)`. */
  function Balance(ledger: Ledger, k: Key): nat {
    if k in ledger then ledger[k] else 0
  }

  /** One transaction of `transfer_many`, with the fee its landing costs the source. */
  datatype Payment = Payment(from: Key, moves: seq<(Key, nat)>, fee: nat)

  /** Recipients of a list of payments, those of the last payment first. */
  function PaidKeys(payments: seq<Payment>): seq<Key> {
    if payments == [] then []
    else KeysOf(payments[|payments| - 1].moves) + PaidKeys(payments[..|payments| - 1])
  }

  function KeysOf(moves: seq<(Key, nat)>): seq<Key> {
    seq(|moves|, i requires 0 <= i < |moves| => moves[i].0)
  }

  // ---------------------------------------------------------------------------
  // The ledger
  // ---------------------------------------------------------------------------

  function Paid(moves: seq<(Key, nat)>): nat {
    if moves == [] then 0 else Paid(moves[..|moves| - 1]) + moves[|moves| - 1].1
  }

  function Received(moves: seq<(Key, nat)>, k: Key): nat {
    if moves == [] then 0
    else Received(moves[..|moves| - 1], k) + if moves[|moves| - 1].0 == k then moves[|moves| - 1].1 else 0
  }

  function Credit(ledger: Ledger, moves: seq<(Key, nat)>): Ledger {
    if moves == [] then ledger
    else
      var (to, amount) := moves[|moves| - 1];
      var before := Credit(ledger, moves[..|moves| - 1]);
      before[to := Balance(before, to) + amount]
  }

  /** A transaction applies all its transfers, or only its fee, or is dropped for lack of a fee. */
  function Land(ledger: Ledger, payment: Payment): Ledger {
    var funds, cost := Balance(ledger, payment.from), Paid(payment.moves);
    if funds < payment.fee then ledger
    else if funds < payment.fee + cost then ledger[payment.from := funds - payment.fee]
    else Credit(ledger[payment.from := funds - payment.fee - cost], payment.moves)
  }

  function LandAll(ledger: Ledger, payments: seq<Payment>): Ledger {
    if payments == [] then ledger
    else Land(LandAll(ledger, payments[..|payments| - 1]), payments[|payments| - 1])
  }

  lemma {:induction false} CreditAdds(ledger: Ledger, moves: seq<(Key, nat)>, k: Key)
    ensures Balance(Credit(ledger, moves), k) == Balance(ledger, k) + Received(moves, k)
    decreases |moves|
  {
    if moves != [] {
      CreditAdds(ledger, moves[..|moves| - 1], k);
    }
  }

  function Moves(keys: seq<Key>, amount: nat): seq<(Key, nat)> {
    seq(|keys|, i requires 0 <= i < |keys| => (keys[i], amount))
  }

  lemma {:induction false} MovesTotals(keys: seq<Key>, amount: nat, k: Key)
    requires Distinct(keys)
    ensures Paid(Moves(keys, amount)) == |keys| * amount
    ensures Received(Moves(keys, amount), k) == if k in keys then amount else 0
    decreases |keys|
  {
    if keys != [] {
      var n := |keys| - 1;
      assert Moves(keys, amount)[..n] == Moves(keys[..n], amount);
      MovesTotals(keys[..n], amount, k);
      assert |keys| * amount == n * amount + amount;
    }
  }

  /** What one payment of equal amounts to distinct other keys does to every balance. */
  lemma LandEffect(ledger: Ledger, from: Key, keys: seq<Key>, amount: nat, fee: nat, k: Key)
    requires Distinct(keys) && from !in keys
    requires |keys| * amount + fee <= Balance(ledger, from)
    ensures Balance(Land(ledger, Payment(from, Moves(keys, amount), fee)), k)
         == if k == from then Balance(ledger, from) - |keys| * amount - fee
            else Balance(ledger, k) + if k in keys then amount else 0
  {
    MovesTotals(keys, amount, k);
    CreditAdds(ledger[from := Balance(ledger, from) - fee - |keys| * amount], Moves(keys, amount), k);
  }

  /** The source can pay the fee and all transfers. */
  predicate Applies(ledger: Ledger, payment: Payment) {
    Balance(ledger, payment.from) >= payment.fee + Paid(payment.moves)
  }

  /** What landing does to a balance: a source pays its fee at most, unless the payment applies. */
  lemma LandBalance(ledger: Ledger, payment: Payment, k: Key)
    ensures payment.from != k ==>
      Balance(Land(ledger, payment), k)
        == Balance(ledger, k) + if Applies(ledger, payment) then Received(payment.moves, k) else 0
    ensures payment.from == k && Applies(ledger, payment) ==>
      Balance(Land(ledger, payment), k)
        == Balance(ledger, k) - payment.fee - Paid(payment.moves) + Received(payment.moves, k)
    ensures payment.from == k && !Applies(ledger, payment) ==>
      Balance(Land(ledger, payment), k)
        == Balance(ledger, k) - if Balance(ledger, k) < payment.fee then 0 else payment.fee
  {
    if Applies(ledger, payment) {
      var charged := Balance(ledger, payment.from) - payment.fee - Paid(payment.moves);
      CreditAdds(ledger[payment.from := charged], payment.moves, k);
    }
  }

  lemma {:induction false} EqualAmounts(moves: seq<(Key, nat)>, amount: nat)
    requires forall v :: 0 <= v < |moves| ==> moves[v].1 == amount
    ensures Paid(moves) == |moves| * amount
    decreases |moves|
  {
    if moves != [] {
      EqualAmounts(moves[..|moves| - 1], amount);
      assert |moves| * amount == (|moves| - 1) * amount + amount;
    }
  }

  lemma {:induction false} UnpaidReceivesNothing(moves: seq<(Key, nat)>, k: Key)
    requires forall v :: 0 <= v < |moves| ==> moves[v].0 != k
    ensures Received(moves, k) == 0
    decreases |moves|
  {
    if moves != [] {
      UnpaidReceivesNothing(moves[..|moves| - 1], k);
    }
  }

  /** All that a list of payments moves to a key. */
  function Incoming(payments: seq<Payment>, k: Key): nat {
    if payments == [] then 0
    else Incoming(payments[..|payments| - 1], k) + Received(payments[|payments| - 1].moves, k)
  }

  /** Nobody who pays is paid. */
  ghost predicate PayersUnpaid(payments: seq<Payment>) {
    forall s, t, v | 0 <= s < |payments| && 0 <= t < |payments| && 0 <= v < |payments[t].moves|
      :: payments[s].from != payments[t].moves[v].0
  }

  lemma {:induction false} NothingIncoming(payments: seq<Payment>, k: Key)
    requires forall t, v | 0 <= t < |payments| && 0 <= v < |payments[t].moves| :: payments[t].moves[v].0 != k
    ensures Incoming(payments, k) == 0
    decreases |payments|
  {
    if payments != [] {
      var n := |payments| - 1;
      assert forall t :: 0 <= t < n ==> payments[..n][t] == payments[t];
      NothingIncoming(payments[..n], k);
      UnpaidReceivesNothing(payments[n].moves, k);
    }
  }

  /** Every payment in turn applies. */
  ghost predicate Affordable(ledger: Ledger, payments: seq<Payment>) {
    payments == [] ||
    var before, last := payments[..|payments| - 1], payments[|payments| - 1];
    Affordable(ledger, before) && Applies(LandAll(ledger, before), last)
  }

  lemma {:induction false} PrefixAffordable(ledger: Ledger, payments: seq<Payment>, e: nat)
    requires Affordable(ledger, payments) && e <= |payments|
    ensures Affordable(ledger, payments[..e])
    decreases |payments|
  {
    if e == |payments| {
      assert payments[..e] == payments;
    } else {
      var before := payments[..|payments| - 1];
      assert before[..e] == payments[..e];
      PrefixAffordable(ledger, before, e);
    }
  }

  lemma {:induction false} AffordableAppend(ledger: Ledger, payments: seq<Payment>, more: seq<Payment>)
    requires Affordable(ledger, payments) && Affordable(LandAll(ledger, payments), more)
    ensures Affordable(ledger, payments + more)
    ensures LandAll(ledger, payments + more) == LandAll(LandAll(ledger, payments), more)
    decreases |more|
  {
    if more == [] {
      assert payments + more == payments;
    } else {
      var n := |more| - 1;
      assert more == more[..n] + [more[n]] && payments + more == (payments + more[..n]) + [more[n]];
      AffordableSnoc(LandAll(ledger, payments), more[..n], more[n]);
      AffordableAppend(ledger, payments, more[..n]);
      AffordableSnoc(ledger, payments + more[..n], more[n]);
    }
  }

  lemma AffordableSnoc(ledger: Ledger, payments: seq<Payment>, last: Payment)
    ensures Affordable(ledger, payments + [last]) <==>
      Affordable(ledger, payments) && Applies(LandAll(ledger, payments), last)
    ensures LandAll(ledger, payments + [last]) == Land(LandAll(ledger, payments), last)
  {
    assert (payments + [last])[..|payments|] == payments;
  }

  /** All that a list of payments takes from a key, fees included. */
  function Outgoing(payments: seq<Payment>, k: Key): nat {
    if payments == [] then 0
    else
      var last := payments[|payments| - 1];
      Outgoing(payments[..|payments| - 1], k) + if last.from == k then last.fee + Paid(last.moves) else 0
  }

  /** Lamports are conserved, key by key. */
  lemma {:induction false} LandAllConserves(ledger: Ledger, payments: seq<Payment>, k: Key)
    requires Affordable(ledger, payments)
    ensures Balance(LandAll(ledger, payments), k) + Outgoing(payments, k) == Balance(ledger, k) + Incoming(payments, k)
    decreases |payments|
  {
    if payments != [] {
      var before, last := payments[..|payments| - 1], payments[|payments| - 1];
      LandAllConserves(ledger, before, k);
      LandBalance(LandAll(ledger, before), last, k);
    }
  }

  lemma ChunkIsFresh(notfunded: seq<Key>, chunk: seq<Key>)
    requires Distinct(notfunded + chunk)
    ensures Distinct(notfunded) && Distinct(chunk)
    ensures forall k :: k in chunk ==> k !in notfunded
  {
    var both := notfunded + chunk;
    assert forall i :: 0 <= i < |notfunded| ==> both[i] == notfunded[i];
    assert forall i :: 0 <= i < |chunk| ==> both[|notfunded| + i] == chunk[i];
  }

  lemma OnePaymentMore(toFund: seq<Payment>, payment: Payment, chunk: seq<Key>)
    requires KeysOf(payment.moves) == chunk
    ensures PaidKeys(toFund + [payment]) == chunk + PaidKeys(toFund)
  {
    assert (toFund + [payment])[..|toFund|] == toFund;
  }

  lemma Associate(a: seq<Key>, b: seq<Key>, c: seq<Key>)
    ensures a + (b + c) == (a + b) + c
  {
  }

  lemma {:induction false} PaidKeysAppend(payments: seq<Payment>, more: seq<Payment>)
    ensures PaidKeys(payments + more) == PaidKeys(more) + PaidKeys(payments)
    decreases |more|
  {
    if more == [] {
      assert payments + more == payments;
    } else {
      var n := |more| - 1;
      PaidKeysAppend(payments, more[..n]);
      assert payments + more == (payments + more[..n]) + [more[n]];
      OnePaymentMore(payments + more[..n], more[n], KeysOf(more[n].moves));
      Associate(KeysOf(more[n].moves), PaidKeys(more[..n]), PaidKeys(payments));
    }
  }

  lemma {:induction false} PaidKeysMember(payments: seq<Payment>, t: nat, v: nat)
    requires t < |payments| && v < |payments[t].moves|
    ensures payments[t].moves[v].0 in PaidKeys(payments)
    decreases |payments|
  {
    var n := |payments| - 1;
    if t == n {
      assert KeysOf(payments[n].moves)[v] == payments[t].moves[v].0;
    } else {
      assert payments[..n][t] == payments[t];
      PaidKeysMember(payments[..n], t, v);
    }
  }
}
