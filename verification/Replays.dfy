/**
 Replays of funding transactions. Both benches sign a transaction anew and send it again when they
 miss its effect, so several signings of one transaction may land. Which replays are harmless is a
 matter of what the sources hold.
 */
module Replays {
  import opened Collections
  import opened Transfers

  /** No two transactions of a plan have the same payer, and nobody pays themselves. */
  ghost predicate WellFormed(plan: seq<Payment>) {
    && (forall s, t :: 0 <= s < t < |plan| ==> plan[s].from != plan[t].from)
    && (forall t, v | 0 <= t < |plan| && 0 <= v < |plan[t].moves| :: plan[t].moves[v].0 != plan[t].from)
  }

  ghost predicate Planned(attempt: Payment, plan: seq<Payment>) {
    exists t :: 0 <= t < |plan| && attempt.from == plan[t].from && attempt.moves == plan[t].moves
  }

  /** Any interleaving of sends and resends of planned transactions, each at a fee of at least `minFee`. */
  ghost predicate Resends(attempts: seq<Payment>, plan: seq<Payment>, minFee: nat) {
    forall i :: 0 <= i < |attempts| ==> attempts[i].fee >= minFee && Planned(attempts[i], plan)
  }

  /** How many of the attempts of one source apply their transfers. */
  ghost function Applied(ledger: Ledger, attempts: seq<Payment>, from: Key): nat
    decreases |attempts|
  {
    if attempts == [] then 0
    else
      var before, last := attempts[..|attempts| - 1], attempts[|attempts| - 1];
      Applied(ledger, before, from) + if last.from == from && Applies(LandAll(ledger, before), last) then 1 else 0
  }

  /** However the transactions of the plan are resent, none of them applies twice. */
  ghost predicate AtMostOnce(plan: seq<Payment>, ledger: Ledger, minFee: nat) {
    forall attempts, t :: Resends(attempts, plan, minFee) && 0 <= t < |plan|
      ==> Applied(ledger, attempts, plan[t].from) <= 1
  }

  // ---------------------------------------------------------------------------
  // A plan whose sources cannot pay twice out of all they ever get
  // ---------------------------------------------------------------------------

  /** Two applications cost more than the source holds and is ever paid. */
  ghost predicate Costly(plan: seq<Payment>, ledger: Ledger, minFee: nat) {
    forall t :: 0 <= t < |plan| ==>
      2 * (Paid(plan[t].moves) + minFee) > Balance(ledger, plan[t].from) + Incoming(plan, plan[t].from)
  }

  /** What the first n transactions of the plan have paid to k, if those that applied did so once. */
  ghost function Inflow(ledger: Ledger, attempts: seq<Payment>, plan: seq<Payment>, n: nat, k: Key): nat
    requires n <= |plan|
  {
    if n == 0 then 0
    else
      Inflow(ledger, attempts, plan, n - 1, k)
        + if Applied(ledger, attempts, plan[n - 1].from) > 0 then Received(plan[n - 1].moves, k) else 0
  }

  lemma {:induction false} InflowWithinIncoming(
    ledger: Ledger, attempts: seq<Payment>, plan: seq<Payment>, n: nat, k: Key)
    requires n <= |plan|
    ensures Inflow(ledger, attempts, plan, n, k) <= Incoming(plan[..n], k)
    decreases n
  {
    if n > 0 {
      InflowWithinIncoming(ledger, attempts, plan, n - 1, k);
      assert plan[..n][..n - 1] == plan[..n - 1];
    }
  }

  /** An attempt of plan entry s adds what that entry pays, if it is the first to apply, and nothing otherwise. */
  lemma {:induction false} InflowStep(
    ledger: Ledger, attempts: seq<Payment>, last: Payment, plan: seq<Payment>, n: nat, s: nat, k: Key)
    requires WellFormed(plan) && n <= |plan| && s < |plan| && last.from == plan[s].from
    requires Applies(LandAll(ledger, attempts), last) ==> Applied(ledger, attempts, last.from) == 0
    ensures Inflow(ledger, attempts + [last], plan, n, k) == Inflow(ledger, attempts, plan, n, k)
      + if s < n && Applies(LandAll(ledger, attempts), last) then Received(plan[s].moves, k) else 0
    decreases n
  {
    if n > 0 {
      InflowStep(ledger, attempts, last, plan, n - 1, s, k);
      AppliedSnoc(ledger, attempts, last, plan[n - 1].from);
    }
  }

  lemma AppliedSnoc(ledger: Ledger, attempts: seq<Payment>, last: Payment, from: Key)
    ensures Applied(ledger, attempts + [last], from) == Applied(ledger, attempts, from)
      + if last.from == from && Applies(LandAll(ledger, attempts), last) then 1 else 0
    ensures LandAll(ledger, attempts + [last]) == Land(LandAll(ledger, attempts), last)
  {
    assert (attempts + [last])[..|attempts|] == attempts;
  }

  /** Source t applied at most once, and what it holds and has spent came from what it held and was paid. */
  ghost predicate Solvent(plan: seq<Payment>, ledger: Ledger, attempts: seq<Payment>, minFee: nat, t: nat)
    requires t < |plan|
  {
    var k := plan[t].from;
    && Applied(ledger, attempts, k) <= 1
    && Balance(LandAll(ledger, attempts), k)
         + (if Applied(ledger, attempts, k) == 1 then Paid(plan[t].moves) + minFee else 0)
       <= Balance(ledger, k) + Inflow(ledger, attempts, plan, |plan|, k)
  }

  lemma SolventStep(
    plan: seq<Payment>, ledger: Ledger, attempts: seq<Payment>, last: Payment, minFee: nat, s: nat, t: nat)
    requires WellFormed(plan) && Costly(plan, ledger, minFee) && s < |plan| && t < |plan|
    requires last.from == plan[s].from && last.moves == plan[s].moves && last.fee >= minFee
    requires Solvent(plan, ledger, attempts, minFee, s) && Solvent(plan, ledger, attempts, minFee, t)
    ensures Solvent(plan, ledger, attempts + [last], minFee, t)
  {
    var k, held := plan[t].from, LandAll(ledger, attempts);
    InflowWithinIncoming(ledger, attempts, plan, |plan|, plan[s].from);
    assert plan[..|plan|] == plan;
    assert Applies(held, last) ==> Applied(ledger, attempts, last.from) == 0;
    InflowStep(ledger, attempts, last, plan, |plan|, s, k);
    AppliedSnoc(ledger, attempts, last, k);
    LandBalance(held, last, k);
    if s == t {
      UnpaidReceivesNothing(last.moves, k);
    } else {
      assert last.from != k;
    }
  }

  lemma {:induction false} AlwaysSolvent(
    plan: seq<Payment>, ledger: Ledger, attempts: seq<Payment>, minFee: nat, t: nat)
    requires WellFormed(plan) && Costly(plan, ledger, minFee) && Resends(attempts, plan, minFee) && t < |plan|
    ensures Solvent(plan, ledger, attempts, minFee, t)
    decreases |attempts|
  {
    if attempts != [] {
      var n := |attempts| - 1;
      var before, last := attempts[..n], attempts[n];
      assert forall i :: 0 <= i < n ==> before[i] == attempts[i];
      var s :| 0 <= s < |plan| && last.from == plan[s].from && last.moves == plan[s].moves;
      AlwaysSolvent(plan, ledger, before, minFee, s);
      AlwaysSolvent(plan, ledger, before, minFee, t);
      SolventStep(plan, ledger, before, last, minFee, s, t);
      assert attempts == before + [last];
    }
  }

  lemma CostlyIsSafe(plan: seq<Payment>, ledger: Ledger, minFee: nat)
    requires WellFormed(plan) && Costly(plan, ledger, minFee)
    ensures AtMostOnce(plan, ledger, minFee)
  {
    forall attempts, t | Resends(attempts, plan, minFee) && 0 <= t < |plan|
      ensures Applied(ledger, attempts, plan[t].from) <= 1
    {
      AlwaysSolvent(plan, ledger, attempts, minFee, t);
    }
  }

  // ---------------------------------------------------------------------------
  // The exact condition
  // ---------------------------------------------------------------------------

  /** Nobody is paid after having paid. */
  ghost predicate PaidFirst(plan: seq<Payment>) {
    forall s, t, v | 0 <= s < t < |plan| && 0 <= v < |plan[t].moves| :: plan[t].moves[v].0 != plan[s].from
  }

  lemma {:induction false} NothingOutgoing(plan: seq<Payment>, n: nat, k: Key)
    requires n <= |plan| && forall s :: 0 <= s < n ==> plan[s].from != k
    ensures Outgoing(plan[..n], k) == 0
    decreases n
  {
    if n > 0 {
      NothingOutgoing(plan, n - 1, k);
      assert plan[..n][..n - 1] == plan[..n - 1];
    }
  }

  lemma {:induction false} IncomingBefore(plan: seq<Payment>, n: nat, t: nat)
    requires WellFormed(plan) && PaidFirst(plan) && t < n <= |plan|
    ensures Incoming(plan[..n], plan[t].from) == Incoming(plan[..t], plan[t].from)
    decreases n
  {
    assert plan[..n][..n - 1] == plan[..n - 1];
    UnpaidReceivesNothing(plan[n - 1].moves, plan[t].from);
    if t < n - 1 {
      IncomingBefore(plan, n - 1, t);
    }
  }

  /** Before its turn, a source holds all it ever gets. */
  lemma FundsBeforeTurn(plan: seq<Payment>, ledger: Ledger, t: nat)
    requires WellFormed(plan) && PaidFirst(plan) && Affordable(ledger, plan) && t < |plan|
    ensures Balance(LandAll(ledger, plan[..t]), plan[t].from)
         == Balance(ledger, plan[t].from) + Incoming(plan, plan[t].from)
  {
    PrefixAffordable(ledger, plan, t);
    LandAllConserves(ledger, plan[..t], plan[t].from);
    NothingOutgoing(plan, t, plan[t].from);
    IncomingBefore(plan, |plan|, t);
    assert plan[..|plan|] == plan;
  }

  /**
   For a plan that can be carried out in order: no interleaving of replays, of whatever age, makes a
   transaction apply twice exactly if two applications cost more than its source holds and is ever paid.
   */
  lemma OrderlyIff(plan: seq<Payment>, ledger: Ledger, minFee: nat)
    requires WellFormed(plan) && PaidFirst(plan) && Affordable(ledger, plan)
    requires forall t :: 0 <= t < |plan| ==> plan[t].fee >= minFee
    ensures AtMostOnce(plan, ledger, minFee) <==> Costly(plan, ledger, minFee)
  {
    if Costly(plan, ledger, minFee) {
      CostlyIsSafe(plan, ledger, minFee);
    } else {
      var t :| 0 <= t < |plan|
        && 2 * (Paid(plan[t].moves) + minFee) <= Balance(ledger, plan[t].from) + Incoming(plan, plan[t].from);
      FundsBeforeTurn(plan, ledger, t);
      forall i | 0 <= i < t ensures Planned(plan[..t][i], plan) {
        assert plan[..t][i] == plan[i];
      }
      CheapAppliesTwice(plan, ledger, minFee, plan[..t], t);
    }
  }

  /** After an orderly run of some planned transactions, one of them can apply twice if it is cheap. */
  lemma CheapAppliesTwice(
    plan: seq<Payment>, ledger: Ledger, minFee: nat, earlier: seq<Payment>, t: nat)
    requires WellFormed(plan) && t < |plan| && Resends(earlier, plan, minFee)
    requires 2 * (Paid(plan[t].moves) + minFee) <= Balance(LandAll(ledger, earlier), plan[t].from)
    ensures !AtMostOnce(plan, ledger, minFee)
  {
    var attempt := plan[t].(fee := minFee);
    TwiceInARow(ledger, earlier, attempt);
    assert Planned(attempt, plan);
    ResendsSnoc(earlier, attempt, plan, minFee);
    ResendsSnoc(earlier + [attempt], attempt, plan, minFee);
  }

  lemma ResendsSnoc(attempts: seq<Payment>, last: Payment, plan: seq<Payment>, minFee: nat)
    requires Resends(attempts, plan, minFee) && Planned(last, plan) && last.fee >= minFee
    ensures Resends(attempts + [last], plan, minFee)
  {
  }

  lemma TwiceInARow(ledger: Ledger, earlier: seq<Payment>, attempt: Payment)
    requires forall v :: 0 <= v < |attempt.moves| ==> attempt.moves[v].0 != attempt.from
    requires 2 * (Paid(attempt.moves) + attempt.fee) <= Balance(LandAll(ledger, earlier), attempt.from)
    ensures Applied(ledger, earlier + [attempt] + [attempt], attempt.from)
         == Applied(ledger, earlier, attempt.from) + 2
  {
    UnpaidReceivesNothing(attempt.moves, attempt.from);
    LandBalance(LandAll(ledger, earlier), attempt, attempt.from);
    AppliedSnoc(ledger, earlier, attempt, attempt.from);
    AppliedSnoc(ledger, earlier + [attempt], attempt, attempt.from);
  }

  /** When no payer is paid: replays are harmless exactly if no source can pay twice out of what it holds. */
  lemma AtMostOnceIff(plan: seq<Payment>, ledger: Ledger, minFee: nat)
    requires WellFormed(plan) && PayersUnpaid(plan)
    ensures AtMostOnce(plan, ledger, minFee) <==>
      forall t :: 0 <= t < |plan| ==> 2 * (Paid(plan[t].moves) + minFee) > Balance(ledger, plan[t].from)
  {
    forall t | 0 <= t < |plan| ensures Incoming(plan, plan[t].from) == 0 {
      NothingIncoming(plan, plan[t].from);
    }
    if forall t :: 0 <= t < |plan| ==> 2 * (Paid(plan[t].moves) + minFee) > Balance(ledger, plan[t].from) {
      CostlyIsSafe(plan, ledger, minFee);
    } else {
      var t :| 0 <= t < |plan| && 2 * (Paid(plan[t].moves) + minFee) <= Balance(ledger, plan[t].from);
      CheapAppliesTwice(plan, ledger, minFee, [], t);
    }
  }

  // ---------------------------------------------------------------------------
  // Rounds: the transactions of earlier rounds are replayed among those of the present one
  // ---------------------------------------------------------------------------

  predicate SameTx(x: Payment, y: Payment) {
    x.from == y.from && x.moves == y.moves
  }

  /** How many of the attempts are signings of one transaction and apply. */
  ghost function AppliedTx(ledger: Ledger, attempts: seq<Payment>, tx: Payment): nat
    decreases |attempts|
  {
    if attempts == [] then 0
    else
      var before, last := attempts[..|attempts| - 1], attempts[|attempts| - 1];
      AppliedTx(ledger, before, tx) + if SameTx(last, tx) && Applies(LandAll(ledger, before), last) then 1 else 0
  }

  /** A round: what the ledger was, what had landed before, and what is to land. */
  datatype RoundRun = RoundRun(ledger: Ledger, past: seq<Payment>, plan: seq<Payment>)

  /** However old and new transactions are resent, no old one applies again and no new one applies twice. */
  ghost predicate RoundSafe(r: RoundRun) {
    forall attempts | Resends(attempts, r.past + r.plan, 0) ::
      && (forall i :: 0 <= i < |r.past| ==> AppliedTx(r.ledger, attempts, r.past[i]) == 0)
      && (forall t :: 0 <= t < |r.plan| ==> AppliedTx(r.ledger, attempts, r.plan[t]) <= 1)
  }

  /** No source can pay twice out of what it holds. */
  ghost predicate CostlyRound(r: RoundRun) {
    forall t :: 0 <= t < |r.plan| ==> 2 * Paid(r.plan[t].moves) > Balance(r.ledger, r.plan[t].from)
  }

  /** No transaction of the past can be paid for any more. */
  ghost predicate Stale(past: seq<Payment>, ledger: Ledger) {
    forall i :: 0 <= i < |past| ==> Paid(past[i].moves) > Balance(ledger, past[i].from)
  }

  /** The new transactions have distinct payers and pay nobody who pays now or has paid before. */
  ghost predicate RoundFormed(r: RoundRun) {
    && WellFormed(r.plan) && PayersUnpaid(r.plan)
    && forall i, t, v | 0 <= i < |r.past| && 0 <= t < |r.plan| && 0 <= v < |r.plan[t].moves| ::
         r.past[i].from != r.plan[t].moves[v].0
  }

  lemma AppliedTxSnoc(ledger: Ledger, attempts: seq<Payment>, last: Payment, tx: Payment)
    ensures AppliedTx(ledger, attempts + [last], tx) == AppliedTx(ledger, attempts, tx)
      + if SameTx(last, tx) && Applies(LandAll(ledger, attempts), last) then 1 else 0
    ensures LandAll(ledger, attempts + [last]) == Land(LandAll(ledger, attempts), last)
  {
    assert (attempts + [last])[..|attempts|] == attempts;
  }

  /** Old payers hold no more than at the start, and neither do new ones, less what they have paid. */
  ghost predicate Spent(r: RoundRun, attempts: seq<Payment>) {
    && (forall i :: 0 <= i < |r.past| ==>
          Balance(LandAll(r.ledger, attempts), r.past[i].from) <= Balance(r.ledger, r.past[i].from)
          && AppliedTx(r.ledger, attempts, r.past[i]) == 0)
    && (forall t :: 0 <= t < |r.plan| ==>
          AppliedTx(r.ledger, attempts, r.plan[t]) <= 1
          && Balance(LandAll(r.ledger, attempts), r.plan[t].from)
               + (if AppliedTx(r.ledger, attempts, r.plan[t]) == 1 then Paid(r.plan[t].moves) else 0)
             <= Balance(r.ledger, r.plan[t].from))
  }

  /** An attempt that applies is the first one of a new transaction. */
  lemma OnlyNewApplies(r: RoundRun, attempts: seq<Payment>, last: Payment) returns (s: int)
    requires CostlyRound(r) && Stale(r.past, r.ledger) && Spent(r, attempts)
    requires Planned(last, r.past + r.plan)
    ensures Applies(LandAll(r.ledger, attempts), last) ==>
      0 <= s < |r.plan| && SameTx(last, r.plan[s]) && AppliedTx(r.ledger, attempts, r.plan[s]) == 0
  {
    var both := r.past + r.plan;
    var i :| 0 <= i < |both| && last.from == both[i].from && last.moves == both[i].moves;
    s := i - |r.past|;
    if i < |r.past| {
      assert both[i] == r.past[i];
    } else {
      assert both[i] == r.plan[s];
    }
  }

  /** What one attempt takes from a payer who is not paid in this round. */
  lemma PayerBalance(ledger: Ledger, last: Payment, k: Key)
    requires Applies(ledger, last) ==> forall v :: 0 <= v < |last.moves| ==> last.moves[v].0 != k
    ensures Balance(Land(ledger, last), k) <= Balance(ledger, k)
    ensures Applies(ledger, last) && last.from == k ==>
      Balance(Land(ledger, last), k) + Paid(last.moves) <= Balance(ledger, k)
  {
    LandBalance(ledger, last, k);
    if Applies(ledger, last) {
      UnpaidReceivesNothing(last.moves, k);
    }
  }

  lemma SpentStep(r: RoundRun, attempts: seq<Payment>, last: Payment)
    requires RoundFormed(r) && CostlyRound(r) && Stale(r.past, r.ledger) && Spent(r, attempts)
    requires Planned(last, r.past + r.plan)
    ensures Spent(r, attempts + [last])
  {
    var held := LandAll(r.ledger, attempts);
    var s := OnlyNewApplies(r, attempts, last);
    forall i | 0 <= i < |r.past|
      ensures Balance(LandAll(r.ledger, attempts + [last]), r.past[i].from) <= Balance(r.ledger, r.past[i].from)
      ensures AppliedTx(r.ledger, attempts + [last], r.past[i]) == 0
    {
      AppliedTxSnoc(r.ledger, attempts, last, r.past[i]);
      PayerBalance(held, last, r.past[i].from);
    }
    forall t | 0 <= t < |r.plan|
      ensures AppliedTx(r.ledger, attempts + [last], r.plan[t]) <= 1
      ensures Balance(LandAll(r.ledger, attempts + [last]), r.plan[t].from)
          + (if AppliedTx(r.ledger, attempts + [last], r.plan[t]) == 1 then Paid(r.plan[t].moves) else 0)
        <= Balance(r.ledger, r.plan[t].from)
    {
      AppliedTxSnoc(r.ledger, attempts, last, r.plan[t]);
      PayerBalance(held, last, r.plan[t].from);
    }
  }

  lemma {:induction false} AlwaysSpent(r: RoundRun, attempts: seq<Payment>)
    requires RoundFormed(r) && CostlyRound(r) && Stale(r.past, r.ledger) && Resends(attempts, r.past + r.plan, 0)
    ensures Spent(r, attempts)
    decreases |attempts|
  {
    if attempts != [] {
      var n := |attempts| - 1;
      assert forall i :: 0 <= i < n ==> attempts[..n][i] == attempts[i];
      AlwaysSpent(r, attempts[..n]);
      SpentStep(r, attempts[..n], attempts[n]);
      assert attempts == attempts[..n] + [attempts[n]];
    }
  }

  /** A round is safe exactly if nothing old can be paid for any more and nothing new twice. */
  lemma RoundSafeIff(r: RoundRun)
    requires RoundFormed(r)
    ensures RoundSafe(r) <==> Stale(r.past, r.ledger) && CostlyRound(r)
  {
    if !Stale(r.past, r.ledger) {
      var i :| 0 <= i < |r.past| && Paid(r.past[i].moves) <= Balance(r.ledger, r.past[i].from);
      OldApplies(r, i);
    } else if !CostlyRound(r) {
      var t :| 0 <= t < |r.plan| && 2 * Paid(r.plan[t].moves) <= Balance(r.ledger, r.plan[t].from);
      NewAppliesTwice(r, t);
    } else {
      forall attempts | Resends(attempts, r.past + r.plan, 0) ensures Spent(r, attempts) {
        AlwaysSpent(r, attempts);
      }
    }
  }

  lemma OldApplies(r: RoundRun, i: nat)
    requires i < |r.past| && Paid(r.past[i].moves) <= Balance(r.ledger, r.past[i].from)
    ensures !RoundSafe(r)
  {
    var attempt := r.past[i].(fee := 0);
    assert (r.past + r.plan)[i] == r.past[i];
    assert Planned(attempt, r.past + r.plan);
    AppliedTxSnoc(r.ledger, [], attempt, r.past[i]);
    assert [] + [attempt] == [attempt];
    assert Resends([attempt], r.past + r.plan, 0);
  }

  lemma NewAppliesTwice(r: RoundRun, t: nat)
    requires WellFormed(r.plan) && t < |r.plan|
    requires 2 * Paid(r.plan[t].moves) <= Balance(r.ledger, r.plan[t].from)
    ensures !RoundSafe(r)
  {
    var attempt := r.plan[t].(fee := 0);
    assert (r.past + r.plan)[|r.past| + t] == r.plan[t];
    assert Planned(attempt, r.past + r.plan);
    AppliedTxSnoc(r.ledger, [], attempt, r.plan[t]);
    PayerBalanceExact(r.ledger, attempt);
    AppliedTxSnoc(r.ledger, [attempt], attempt, r.plan[t]);
    assert [] + [attempt] == [attempt] && [attempt] + [attempt] == [attempt, attempt];
    assert Resends([attempt, attempt], r.past + r.plan, 0);
  }

  lemma PayerBalanceExact(ledger: Ledger, payment: Payment)
    requires Applies(ledger, payment) && forall v :: 0 <= v < |payment.moves| ==> payment.moves[v].0 != payment.from
    ensures Balance(Land(ledger, payment), payment.from)
         == Balance(ledger, payment.from) - payment.fee - Paid(payment.moves)
  {
    LandBalance(ledger, payment, payment.from);
    UnpaidReceivesNothing(payment.moves, payment.from);
  }

  // ---------------------------------------------------------------------------
  // Runs of several rounds
  // ---------------------------------------------------------------------------

  ghost predicate RunSafe(rounds: seq<RoundRun>) {
    forall i :: 0 <= i < |rounds| ==> RoundSafe(rounds[i])
  }

  ghost predicate RunCostly(rounds: seq<RoundRun>) {
    forall i :: 0 <= i < |rounds| ==> CostlyRound(rounds[i])
  }

  /** Each round begins where the one before has ended, and all its transactions apply. */
  ghost predicate Run(start: Ledger, rounds: seq<RoundRun>, payments: seq<Payment>, ledger: Ledger) {
    if rounds == [] then payments == [] && ledger == start
    else
      var before, last := rounds[..|rounds| - 1], rounds[|rounds| - 1];
      && Run(start, before, last.past, last.ledger) && RoundFormed(last) && Affordable(last.ledger, last.plan)
      && payments == last.past + last.plan && ledger == LandAll(last.ledger, last.plan)
  }

  lemma {:induction false} OutgoingAtLeast(plan: seq<Payment>, t: nat)
    requires t < |plan|
    ensures Outgoing(plan, plan[t].from) >= Paid(plan[t].moves)
    decreases |plan|
  {
    if t < |plan| - 1 {
      OutgoingAtLeast(plan[..|plan| - 1], t);
    }
  }

  /** Once a costly round has landed, its transactions are stale, and so are those before it. */
  lemma StaleAfter(r: RoundRun)
    requires RoundFormed(r) && CostlyRound(r) && Stale(r.past, r.ledger) && Affordable(r.ledger, r.plan)
    ensures Stale(r.past + r.plan, LandAll(r.ledger, r.plan))
  {
    forall i | 0 <= i < |r.past| ensures Paid(r.past[i].moves) > Balance(LandAll(r.ledger, r.plan), r.past[i].from) {
      NothingIncoming(r.plan, r.past[i].from);
      LandAllConserves(r.ledger, r.plan, r.past[i].from);
    }
    forall t | 0 <= t < |r.plan| ensures Paid(r.plan[t].moves) > Balance(LandAll(r.ledger, r.plan), r.plan[t].from) {
      NothingIncoming(r.plan, r.plan[t].from);
      LandAllConserves(r.ledger, r.plan, r.plan[t].from);
      OutgoingAtLeast(r.plan, t);
    }
  }

  lemma {:induction false} StaleAfterRun(start: Ledger, rounds: seq<RoundRun>, payments: seq<Payment>, ledger: Ledger)
    requires Run(start, rounds, payments, ledger) && RunCostly(rounds)
    ensures Stale(payments, ledger)
    decreases |rounds|
  {
    if rounds != [] {
      var before, last := rounds[..|rounds| - 1], rounds[|rounds| - 1];
      assert forall i :: 0 <= i < |before| ==> before[i] == rounds[i];
      StaleAfterRun(start, before, last.past, last.ledger);
      StaleAfter(last);
    }
  }

  /**
   Over a whole run: no transaction, of whatever round and however often it is resent, applies a second
   time, if and only if no source of any round can pay twice out of what it then holds.
   */
  lemma {:induction false} RunSafeIff(start: Ledger, rounds: seq<RoundRun>, payments: seq<Payment>, ledger: Ledger)
    requires Run(start, rounds, payments, ledger)
    ensures RunSafe(rounds) <==> RunCostly(rounds)
    decreases |rounds|
  {
    if rounds != [] {
      var before, last := rounds[..|rounds| - 1], rounds[|rounds| - 1];
      assert forall i :: 0 <= i < |before| ==> before[i] == rounds[i];
      assert forall i :: 0 <= i < |rounds| - 1 ==> rounds[i] == before[i];
      RunSafeIff(start, before, last.past, last.ledger);
      RoundSafeIff(last);
      if RunCostly(rounds) {
        StaleAfterRun(start, before, last.past, last.ledger);
      }
    }
  }

  // ---------------------------------------------------------------------------
  // A safe round comes out the same, however its transactions land
  // ---------------------------------------------------------------------------

  /** What the new transactions that have applied have paid to k, and what they have taken from it. */
  ghost function PaidTo(r: RoundRun, attempts: seq<Payment>, n: nat, k: Key): nat
    requires n <= |r.plan|
  {
    if n == 0 then 0
    else
      PaidTo(r, attempts, n - 1, k)
        + if AppliedTx(r.ledger, attempts, r.plan[n - 1]) > 0 then Received(r.plan[n - 1].moves, k) else 0
  }

  ghost function TakenFrom(r: RoundRun, attempts: seq<Payment>, n: nat, k: Key): nat
    requires n <= |r.plan|
  {
    if n == 0 then 0
    else
      TakenFrom(r, attempts, n - 1, k)
        + if AppliedTx(r.ledger, attempts, r.plan[n - 1]) > 0 && r.plan[n - 1].from == k
          then Paid(r.plan[n - 1].moves) else 0
  }

  lemma {:induction false} FlowStep(r: RoundRun, attempts: seq<Payment>, last: Payment, n: nat, s: int, k: Key)
    requires RoundFormed(r) && n <= |r.plan|
    requires Applies(LandAll(r.ledger, attempts), last) ==>
      0 <= s < |r.plan| && SameTx(last, r.plan[s]) && AppliedTx(r.ledger, attempts, r.plan[s]) == 0
    ensures var counts := Applies(LandAll(r.ledger, attempts), last) && s < n;
            && PaidTo(r, attempts + [last], n, k) == PaidTo(r, attempts, n, k)
                 + (if counts then Received(last.moves, k) else 0)
            && TakenFrom(r, attempts + [last], n, k) == TakenFrom(r, attempts, n, k)
                 + (if counts && last.from == k then Paid(last.moves) else 0)
    decreases n
  {
    if n > 0 {
      FlowStep(r, attempts, last, n - 1, s, k);
      AppliedTxSnoc(r.ledger, attempts, last, r.plan[n - 1]);
    }
  }

  /** Every new transaction can be paid for, whatever has landed before it. */
  ghost predicate RoundAffordable(r: RoundRun) {
    forall t :: 0 <= t < |r.plan| ==> Paid(r.plan[t].moves) <= Balance(r.ledger, r.plan[t].from)
  }

  ghost predicate Free(payments: seq<Payment>) {
    forall i :: 0 <= i < |payments| ==> payments[i].fee == 0
  }

  /** Each balance is what the start was and the applied transactions have moved. */
  ghost predicate Flows(r: RoundRun, attempts: seq<Payment>, k: Key) {
    Balance(LandAll(r.ledger, attempts), k) + TakenFrom(r, attempts, |r.plan|, k)
      == Balance(r.ledger, k) + PaidTo(r, attempts, |r.plan|, k)
  }

  lemma FlowsStep(r: RoundRun, attempts: seq<Payment>, last: Payment, k: Key)
    requires RoundFormed(r) && CostlyRound(r) && Stale(r.past, r.ledger) && Spent(r, attempts)
    requires Planned(last, r.past + r.plan) && last.fee == 0 && Flows(r, attempts, k)
    ensures Flows(r, attempts + [last], k)
  {
    var s := OnlyNewApplies(r, attempts, last);
    FlowStep(r, attempts, last, |r.plan|, s, k);
    AppliedTxSnoc(r.ledger, attempts, last, last);
    FreeLanding(LandAll(r.ledger, attempts), last, k);
  }

  lemma FreeLanding(ledger: Ledger, payment: Payment, k: Key)
    requires payment.fee == 0
    ensures !Applies(ledger, payment) ==> Balance(Land(ledger, payment), k) == Balance(ledger, k)
    ensures Applies(ledger, payment) ==>
      Balance(Land(ledger, payment), k) + (if payment.from == k then Paid(payment.moves) else 0)
        == Balance(ledger, k) + Received(payment.moves, k)
  {
    LandBalance(ledger, payment, k);
  }

  lemma {:induction false} AlwaysFlows(r: RoundRun, attempts: seq<Payment>, k: Key)
    requires RoundFormed(r) && CostlyRound(r) && Stale(r.past, r.ledger)
    requires Resends(attempts, r.past + r.plan, 0) && Free(attempts)
    ensures Flows(r, attempts, k)
    decreases |attempts|
  {
    if attempts == [] {
      NoFlow(r, |r.plan|, k);
    } else {
      var n := |attempts| - 1;
      ResendsPrefix(attempts, r.past + r.plan, n);
      AlwaysFlows(r, attempts[..n], k);
      AlwaysSpent(r, attempts[..n]);
      FlowsStep(r, attempts[..n], attempts[n], k);
      assert attempts == attempts[..n] + [attempts[n]];
    }
  }

  lemma {:induction false} NoFlow(r: RoundRun, n: nat, k: Key)
    requires n <= |r.plan|
    ensures PaidTo(r, [], n, k) == 0 && TakenFrom(r, [], n, k) == 0
    decreases n
  {
    if n > 0 {
      NoFlow(r, n - 1, k);
    }
  }

  /** Whatever was attempted has applied. */
  lemma {:induction false} AttemptedApplied(r: RoundRun, attempts: seq<Payment>, i: nat, t: nat)
    requires RoundFormed(r) && CostlyRound(r) && Stale(r.past, r.ledger) && RoundAffordable(r)
    requires Resends(attempts, r.past + r.plan, 0) && Free(attempts)
    requires i < |attempts| && t < |r.plan| && SameTx(attempts[i], r.plan[t])
    ensures AppliedTx(r.ledger, attempts, r.plan[t]) > 0
    decreases |attempts|
  {
    var n := |attempts| - 1;
    var before, last := attempts[..n], attempts[n];
    ResendsPrefix(attempts, r.past + r.plan, n);
    if i < n {
      AttemptedApplied(r, before, i, t);
    } else {
      AlwaysFlows(r, before, r.plan[t].from);
      FirstAttemptApplies(r, before, last, t);
      assert attempts == before + [last];
    }
  }

  lemma ResendsPrefix(attempts: seq<Payment>, plan: seq<Payment>, n: nat)
    requires Resends(attempts, plan, 0) && Free(attempts) && n <= |attempts|
    ensures Resends(attempts[..n], plan, 0) && Free(attempts[..n])
  {
    assert forall i :: 0 <= i < n ==> attempts[..n][i] == attempts[i];
  }

  lemma FirstAttemptApplies(r: RoundRun, attempts: seq<Payment>, last: Payment, t: nat)
    requires RoundFormed(r) && RoundAffordable(r) && t < |r.plan| && Flows(r, attempts, r.plan[t].from)
    requires SameTx(last, r.plan[t]) && last.fee == 0
    ensures AppliedTx(r.ledger, attempts + [last], r.plan[t]) > 0
  {
    AppliedTxSnoc(r.ledger, attempts, last, r.plan[t]);
    if AppliedTx(r.ledger, attempts, r.plan[t]) == 0 {
      OwnTaking(r, attempts, |r.plan|, t);
    }
  }

  /** Before its transaction has applied, nothing is taken from a payer. */
  lemma {:induction false} OwnTaking(r: RoundRun, attempts: seq<Payment>, n: nat, t: nat)
    requires RoundFormed(r) && n <= |r.plan| && t < |r.plan|
    requires AppliedTx(r.ledger, attempts, r.plan[t]) == 0
    ensures TakenFrom(r, attempts, n, r.plan[t].from) == 0
    decreases n
  {
    if n > 0 {
      OwnTaking(r, attempts, n - 1, t);
    }
  }

  lemma {:induction false} AllFlows(r: RoundRun, attempts: seq<Payment>, n: nat, k: Key)
    requires n <= |r.plan| && Free(r.plan)
    requires forall t :: 0 <= t < n ==> AppliedTx(r.ledger, attempts, r.plan[t]) > 0
    ensures PaidTo(r, attempts, n, k) == Incoming(r.plan[..n], k)
    ensures TakenFrom(r, attempts, n, k) == Outgoing(r.plan[..n], k)
    decreases n
  {
    if n > 0 {
      AllFlows(r, attempts, n - 1, k);
      assert r.plan[..n][..n - 1] == r.plan[..n - 1];
    }
  }

  /** The source of a transaction that applies in turn could pay for it from the start. */
  lemma AffordableFromStart(r: RoundRun, t: nat)
    requires RoundFormed(r) && Affordable(r.ledger, r.plan) && t < |r.plan|
    ensures Paid(r.plan[t].moves) <= Balance(r.ledger, r.plan[t].from)
  {
    LandAllConserves(r.ledger, r.plan, r.plan[t].from);
    NothingIncoming(r.plan, r.plan[t].from);
    OutgoingAtLeast(r.plan, t);
  }

  /**
   In a safe round without fees, once each transaction has been attempted, every balance is what it would
   be had they landed one by one, in order: neither their order nor any replay, old or new, matters.
   */
  lemma AnyOrderLandsRound(r: RoundRun, attempts: seq<Payment>, k: Key)
    requires RoundFormed(r) && RoundSafe(r) && Affordable(r.ledger, r.plan) && Free(r.plan)
    requires Resends(attempts, r.past + r.plan, 0) && Free(attempts)
    requires forall t :: 0 <= t < |r.plan| ==> exists i :: 0 <= i < |attempts| && SameTx(attempts[i], r.plan[t])
    ensures Balance(LandAll(r.ledger, attempts), k) == Balance(LandAll(r.ledger, r.plan), k)
  {
    RoundSafeIff(r);
    forall t | 0 <= t < |r.plan| ensures Paid(r.plan[t].moves) <= Balance(r.ledger, r.plan[t].from) {
      AffordableFromStart(r, t);
    }
    forall t | 0 <= t < |r.plan| ensures AppliedTx(r.ledger, attempts, r.plan[t]) > 0 {
      var i :| 0 <= i < |attempts| && SameTx(attempts[i], r.plan[t]);
      AttemptedApplied(r, attempts, i, t);
    }
    AlwaysFlows(r, attempts, k);
    AllFlows(r, attempts, |r.plan|, k);
    assert r.plan[..|r.plan|] == r.plan;
    LandAllConserves(r.ledger, r.plan, k);
  }
}
