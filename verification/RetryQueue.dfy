/**
 The queue of transactions that the banks server retries
 (`banks-server/src/send_transaction_service.rs`).

 A bank is what the service reads from it. The retry thread is a run of accept and sweep steps; when
 a sweep happens and what the banks answer are inputs.
 */
module RetryQueue {
  import opened Collections

  const MAX_TRANSACTION_QUEUE_SIZE: nat := 10_000

  type Signature = nat

  datatype TransactionInfo = TransactionInfo(signature: Signature, wireTransaction: seq<nat>, lastValidSlot: nat)

  type Queue = map<Signature, TransactionInfo>

  /** The root bank's slot and signatures; the working bank's status, true for success, of those it knows. */
  datatype Banks = Banks(rootSlot: nat, rooted: set<Signature>, status: map<Signature, bool>)

  datatype ProcessTransactionsResult = ProcessTransactionsResult(
    rooted: nat, expired: nat, retried: nat, failed: nat, retained: nat)

  datatype Verdict = Rooted | Expired | Retried | Failed | Retained

  function Judge(banks: Banks, info: TransactionInfo, signature: Signature): Verdict {
    if signature in banks.rooted then Rooted
    else if info.lastValidSlot < banks.rootSlot then Expired
    else if signature !in banks.status then Retried
    else if !banks.status[signature] then Failed
    else Retained
  }

  predicate Stays(verdict: Verdict) {
    verdict.Retried? || verdict.Retained?
  }

  // ---------------------------------------------------------------------------
  // What a sweep is to do, in terms of the banks
  // ---------------------------------------------------------------------------

  /** Neither rooted nor past its last valid slot. */
  ghost predicate Live(banks: Banks, info: TransactionInfo, s: Signature) {
    s !in banks.rooted && info.lastValidSlot >= banks.rootSlot
  }

  /** Live, and not known to have failed. */
  ghost predicate Survives(banks: Banks, info: TransactionInfo, s: Signature) {
    Live(banks, info, s) && (s !in banks.status || banks.status[s])
  }

  /** Live, and unknown to the working bank. */
  ghost predicate Unknown(banks: Banks, info: TransactionInfo, s: Signature) {
    Live(banks, info, s) && s !in banks.status
  }

  ghost predicate Fate(banks: Banks, info: TransactionInfo, s: Signature, verdict: Verdict) {
    match verdict
    case Rooted => s in banks.rooted
    case Expired => s !in banks.rooted && info.lastValidSlot < banks.rootSlot
    case Retried => Unknown(banks, info, s)
    case Failed => Live(banks, info, s) && s in banks.status && !banks.status[s]
    case Retained => Live(banks, info, s) && s in banks.status && banks.status[s]
  }

  /** The code's verdict is the fate that the banks decide. */
  lemma JudgeIsFate(banks: Banks, info: TransactionInfo, s: Signature)
    ensures forall v :: Judge(banks, info, s) == v <==> Fate(banks, info, s, v)
    ensures Stays(Judge(banks, info, s)) <==> Survives(banks, info, s)
    ensures Judge(banks, info, s).Retried? <==> Unknown(banks, info, s)
  {
  }

  /** The visited entries that meet a certain fate. */
  ghost function Judged(queue: Queue, visited: set<Signature>, banks: Banks, verdict: Verdict): set<Signature> {
    set s | s in visited && s in queue && Fate(banks, queue[s], s, verdict)
  }

  /** The queue after a sweep. */
  ghost function Swept(queue: Queue, banks: Banks): Queue {
    map s | s in queue && Survives(banks, queue[s], s) :: queue[s]
  }

  function Tally(result: ProcessTransactionsResult, verdict: Verdict): nat {
    match verdict
    case Rooted => result.rooted
    case Expired => result.expired
    case Retried => result.retried
    case Failed => result.failed
    case Retained => result.retained
  }

  function One(b: bool): nat {
    if b then 1 else 0
  }

  function Count(result: ProcessTransactionsResult, verdict: Verdict): ProcessTransactionsResult {
    ProcessTransactionsResult(
      result.rooted + One(verdict.Rooted?), result.expired + One(verdict.Expired?),
      result.retried + One(verdict.Retried?), result.failed + One(verdict.Failed?),
      result.retained + One(verdict.Retained?))
  }

  function Sum(result: ProcessTransactionsResult): nat {
    result.rooted + result.expired + result.retried + result.failed + result.retained
  }

  /** Each counter is the number of entries that met its fate. */
  ghost predicate Counts(queue: Queue, banks: Banks, result: ProcessTransactionsResult) {
    && result.rooted == |set s | s in queue && s in banks.rooted|
    && result.expired == |set s | s in queue && s !in banks.rooted && queue[s].lastValidSlot < banks.rootSlot|
    && result.retried == |set s | s in queue && Live(banks, queue[s], s) && s !in banks.status|
    && result.failed == |set s | s in queue && Live(banks, queue[s], s) && s in banks.status && !banks.status[s]|
    && result.retained == |set s | s in queue && Live(banks, queue[s], s) && s in banks.status && banks.status[s]|
  }

  lemma CountsAre(queue: Queue, banks: Banks, result: ProcessTransactionsResult)
    ensures Counts(queue, banks, result) <==> forall v :: Tally(result, v) == |Judged(queue, queue.Keys, banks, v)|
  {
    assert Judged(queue, queue.Keys, banks, Rooted) == set s | s in queue && s in banks.rooted;
    assert Judged(queue, queue.Keys, banks, Expired)
        == set s | s in queue && s !in banks.rooted && queue[s].lastValidSlot < banks.rootSlot;
    assert Judged(queue, queue.Keys, banks, Retried)
        == set s | s in queue && Live(banks, queue[s], s) && s !in banks.status;
    assert Judged(queue, queue.Keys, banks, Failed)
        == set s | s in queue && Live(banks, queue[s], s) && s in banks.status && !banks.status[s];
    assert Judged(queue, queue.Keys, banks, Retained)
        == set s | s in queue && Live(banks, queue[s], s) && s in banks.status && banks.status[s];
    assert Tally(result, Rooted) == result.rooted && Tally(result, Expired) == result.expired
        && Tally(result, Retried) == result.retried && Tally(result, Failed) == result.failed
        && Tally(result, Retained) == result.retained;
    CountersOf(result, queue, banks);
  }

  lemma CountersOf(result: ProcessTransactionsResult, queue: Queue, banks: Banks)
    ensures (forall v :: Tally(result, v) == |Judged(queue, queue.Keys, banks, v)|) <==>
      && Tally(result, Rooted) == |Judged(queue, queue.Keys, banks, Rooted)|
      && Tally(result, Expired) == |Judged(queue, queue.Keys, banks, Expired)|
      && Tally(result, Retried) == |Judged(queue, queue.Keys, banks, Retried)|
      && Tally(result, Failed) == |Judged(queue, queue.Keys, banks, Failed)|
      && Tally(result, Retained) == |Judged(queue, queue.Keys, banks, Retained)|
  {
  }

  ghost predicate IsOrder(order: seq<Signature>, queue: Queue) {
    && |order| == |queue|
    && Distinct(order)
    && (forall s :: s in order <==> s in queue)
  }

  ghost function SetOf(order: seq<Signature>): set<Signature> {
    set s | s in order
  }

  /** The counters after the first i entries of an order. */
  ghost function TallyUpTo(queue: Queue, banks: Banks, order: seq<Signature>, i: nat): ProcessTransactionsResult
    requires i <= |order| && forall s :: s in order ==> s in queue
  {
    if i == 0 then ProcessTransactionsResult(0, 0, 0, 0, 0)
    else Count(TallyUpTo(queue, banks, order, i - 1), Judge(banks, queue[order[i - 1]], order[i - 1]))
  }

  /** The signatures among the first i of an order that are sent again. */
  ghost function ResentUpTo(queue: Queue, banks: Banks, order: seq<Signature>, i: nat): seq<Signature>
    requires i <= |order| && forall s :: s in order ==> s in queue
  {
    if i == 0 then []
    else
      var s := order[i - 1];
      ResentUpTo(queue, banks, order, i - 1) + if Unknown(banks, queue[s], s) then [s] else []
  }

  /** Exactly the entries to be retried, each once. */
  ghost predicate Resends(queue: Queue, banks: Banks, resent: seq<Signature>) {
    Distinct(resent) && forall s :: s in resent <==> s in queue && Unknown(banks, queue[s], s)
  }

  /** What goes out on the socket for a list of queued signatures. */
  ghost function Wires(queue: Queue, signatures: seq<Signature>): seq<seq<nat>>
    requires forall s :: s in signatures ==> s in queue
  {
    seq(|signatures|, i requires 0 <= i < |signatures| => queue[signatures[i]].wireTransaction)
  }

  /** What the visit to one entry sends. */
  ghost function WiresOf(queue: Queue, banks: Banks, s: Signature): seq<seq<nat>>
    requires s in queue
  {
    if Unknown(banks, queue[s], s) then [queue[s].wireTransaction] else []
  }

  ghost function WiresUpTo(queue: Queue, banks: Banks, order: seq<Signature>, i: nat): seq<seq<nat>>
    requires i <= |order| && forall s :: s in order ==> s in queue
  {
    if i == 0 then [] else WiresUpTo(queue, banks, order, i - 1) + WiresOf(queue, banks, order[i - 1])
  }

  lemma {:induction false} WiresOfResent(queue: Queue, banks: Banks, order: seq<Signature>, i: nat)
    requires i <= |order| && forall s :: s in order ==> s in queue
    ensures forall s :: s in ResentUpTo(queue, banks, order, i) ==> s in queue
    ensures WiresUpTo(queue, banks, order, i) == Wires(queue, ResentUpTo(queue, banks, order, i))
    decreases i
  {
    if i > 0 {
      WiresOfResent(queue, banks, order, i - 1);
    }
  }

  lemma {:induction false} ResentMembers(queue: Queue, banks: Banks, order: seq<Signature>, i: nat)
    requires IsOrder(order, queue) && i <= |order|
    ensures Distinct(ResentUpTo(queue, banks, order, i))
    ensures forall s ::
      s in ResentUpTo(queue, banks, order, i) <==> s in order[..i] && s in queue && Unknown(banks, queue[s], s)
    decreases i
  {
    if i > 0 {
      ResentMembers(queue, banks, order, i - 1);
      OneMore(order, i - 1);
      assert order[..i] == order[..i - 1] + [order[i - 1]];
    }
  }

  lemma {:induction false} TallyCounts(queue: Queue, banks: Banks, order: seq<Signature>, i: nat, v: Verdict)
    requires IsOrder(order, queue) && i <= |order|
    ensures Tally(TallyUpTo(queue, banks, order, i), v) == |Judged(queue, SetOf(order[..i]), banks, v)|
    decreases i
  {
    if i == 0 {
      assert SetOf(order[..0]) == {} && Judged(queue, {}, banks, v) == {};
    } else {
      TallyCounts(queue, banks, order, i - 1, v);
      CountSum(TallyUpTo(queue, banks, order, i - 1), Judge(banks, queue[order[i - 1]], order[i - 1]));
      OneMore(order, i - 1);
      JudgedInsert(queue, SetOf(order[..i - 1]), banks, order[i - 1], v);
    }
  }

  lemma OneMore(order: seq<Signature>, i: nat)
    requires i < |order| && Distinct(order)
    ensures SetOf(order[..i + 1]) == SetOf(order[..i]) + {order[i]} && order[i] !in SetOf(order[..i])
  {
    assert order[..i + 1] == order[..i] + [order[i]];
  }

  lemma {:induction false} TallySum(queue: Queue, banks: Banks, order: seq<Signature>, i: nat)
    requires i <= |order| && forall s :: s in order ==> s in queue
    ensures Sum(TallyUpTo(queue, banks, order, i)) == i
    decreases i
  {
    if i > 0 {
      TallySum(queue, banks, order, i - 1);
      CountSum(TallyUpTo(queue, banks, order, i - 1), Judge(banks, queue[order[i - 1]], order[i - 1]));
    }
  }

  lemma CountSum(result: ProcessTransactionsResult, verdict: Verdict)
    ensures Sum(Count(result, verdict)) == Sum(result) + 1
    ensures Tally(Count(result, verdict), verdict) == Tally(result, verdict) + 1
    ensures forall v :: v != verdict ==> Tally(Count(result, verdict), v) == Tally(result, v)
  {
  }

  lemma JudgedInsert(queue: Queue, visited: set<Signature>, banks: Banks, s: Signature, v: Verdict)
    requires s in queue && s !in visited
    ensures |Judged(queue, visited + {s}, banks, v)|
         == |Judged(queue, visited, banks, v)| + if v == Judge(banks, queue[s], s) then 1 else 0
  {
    JudgeIsFate(banks, queue[s], s);
    if v == Judge(banks, queue[s], s) {
      assert Judged(queue, visited + {s}, banks, v) == Judged(queue, visited, banks, v) + {s};
    } else {
      assert Judged(queue, visited + {s}, banks, v) == Judged(queue, visited, banks, v);
    }
  }

  lemma FullTally(queue: Queue, banks: Banks, order: seq<Signature>)
    requires IsOrder(order, queue)
    ensures Counts(queue, banks, TallyUpTo(queue, banks, order, |order|))
    ensures Sum(TallyUpTo(queue, banks, order, |order|)) == |queue|
  {
    assert order[..|order|] == order && SetOf(order) == queue.Keys;
    forall v ensures Tally(TallyUpTo(queue, banks, order, |order|), v) == |Judged(queue, queue.Keys, banks, v)| {
      TallyCounts(queue, banks, order, |order|, v);
    }
    CountsAre(queue, banks, TallyUpTo(queue, banks, order, |order|));
    TallySum(queue, banks, order, |order|);
  }

  /** During a sweep the queue still holds the entries not yet visited and those that stay. */
  ghost predicate KeptOk(queue: Queue, left: seq<Signature>, banks: Banks, kept: Queue) {
    && (forall s :: s in kept <==> s in queue && (s in left || Survives(banks, queue[s], s)))
    && (forall s :: s in kept ==> kept[s] == queue[s])
  }

  lemma KeptStep(queue: Queue, order: seq<Signature>, i: nat, banks: Banks, kept: Queue, kept': Queue)
    requires IsOrder(order, queue) && i < |order| && KeptOk(queue, order[i..], banks, kept)
    requires kept' == if Survives(banks, queue[order[i]], order[i]) then kept else kept - {order[i]}
    ensures KeptOk(queue, order[i + 1..], banks, kept')
  {
    NextIsLeft(order, i);
  }

  lemma NextIsLeft(order: seq<Signature>, i: nat)
    requires i < |order| && Distinct(order)
    ensures order[i] !in order[i + 1..]
    ensures forall s :: s in order[i..] <==> s == order[i] || s in order[i + 1..]
  {
    assert order[i..] == [order[i]] + order[i + 1..];
  }

  /** Retried and retained entries make up the new queue. */
  lemma KeptSize(queue: Queue, banks: Banks, result: ProcessTransactionsResult)
    requires Counts(queue, banks, result)
    ensures result.retried + result.retained == |Swept(queue, banks)|
  {
    var retried, retained := Judged(queue, queue.Keys, banks, Retried), Judged(queue, queue.Keys, banks, Retained);
    CountsAre(queue, banks, result);
    assert Tally(result, Retried) == |retried| && Tally(result, Retained) == |retained|;
    assert Swept(queue, banks).Keys == retried + retained;
    UnionSize(retried, retained);
  }

  lemma UnionSize(a: set<Signature>, b: set<Signature>)
    requires a !! b
    ensures |a + b| == |a| + |b|
  {
  }

  /** The sweep after the first i entries. */
  ghost predicate SweepOk(
    queue: Queue, banks: Banks, order: seq<Signature>, i: nat, kept: Queue, result: ProcessTransactionsResult)
  {
    && IsOrder(order, queue) && i <= |order| && result == TallyUpTo(queue, banks, order, i)
    && KeptOk(queue, order[i..], banks, kept)
  }

  lemma SweepStep(
    queue: Queue, banks: Banks, order: seq<Signature>, i: nat, kept: Queue, result: ProcessTransactionsResult,
    verdict: Verdict, kept': Queue)
    requires SweepOk(queue, banks, order, i, kept, result) && i < |order|
    requires verdict == Judge(banks, queue[order[i]], order[i])
    requires kept' == if Stays(verdict) then kept else kept - {order[i]}
    ensures SweepOk(queue, banks, order, i + 1, kept', Count(result, verdict))
  {
    JudgeIsFate(banks, queue[order[i]], order[i]);
    KeptStep(queue, order, i, banks, kept, kept');
  }

  ghost predicate SentOk(
    queue: Queue, banks: Banks, order: seq<Signature>, i: nat, before: seq<seq<nat>>, sent: seq<seq<nat>>)
  {
    && i <= |order| && (forall s :: s in order ==> s in queue)
    && sent == before + WiresUpTo(queue, banks, order, i)
  }

  lemma SentDone(queue: Queue, banks: Banks, order: seq<Signature>, before: seq<seq<nat>>, sent: seq<seq<nat>>)
    returns (resent: seq<Signature>)
    requires IsOrder(order, queue) && SentOk(queue, banks, order, |order|, before, sent)
    ensures Resends(queue, banks, resent) && sent == before + Wires(queue, resent)
  {
    resent := ResentUpTo(queue, banks, order, |order|);
    ResentMembers(queue, banks, order, |order|);
    WiresOfResent(queue, banks, order, |order|);
    assert order[..|order|] == order;
  }

  lemma SweepStart(queue: Queue, banks: Banks, order: seq<Signature>)
    requires IsOrder(order, queue)
    ensures SweepOk(queue, banks, order, 0, queue, ProcessTransactionsResult(0, 0, 0, 0, 0))
  {
    assert order[0..] == order;
  }

  lemma SweepDone(
    queue: Queue, banks: Banks, order: seq<Signature>, kept: Queue, result: ProcessTransactionsResult)
    requires SweepOk(queue, banks, order, |order|, kept, result)
    ensures kept == Swept(queue, banks)
    ensures Counts(queue, banks, result) && Sum(result) == |queue|
  {
    FullTally(queue, banks, order);
    assert order[|order|..] == [];
    KeptDone(queue, banks, kept);
  }

  /** The closure passed to `retain`: one entry is judged, counted, sent if it is retried, and dropped or kept. */
  method Visit(
    queue: Queue, banks: Banks, order: seq<Signature>, i: nat, kept: Queue, result: ProcessTransactionsResult,
    ghost before: seq<seq<nat>>, sent: seq<seq<nat>>)
    returns (kept': Queue, result': ProcessTransactionsResult, sent': seq<seq<nat>>)
    requires SweepOk(queue, banks, order, i, kept, result) && i < |order|
    requires SentOk(queue, banks, order, i, before, sent)
    ensures SweepOk(queue, banks, order, i + 1, kept', result')
    ensures SentOk(queue, banks, order, i + 1, before, sent')
  {
    var s := order[i];
    var verdict := Judge(banks, queue[s], s);
    JudgeIsFate(banks, queue[s], s);
    sent' := sent + if verdict.Retried? then [queue[s].wireTransaction] else [];
    kept', result' := if Stays(verdict) then kept else kept - {s}, Count(result, verdict);
    SweepStep(queue, banks, order, i, kept, result, verdict, kept');
  }

  /** Visits the entries in some order, sends the retried ones and keeps those that are to be tried again. */
  method RetainAndCount(queue: Queue, banks: Banks, before: seq<seq<nat>>)
    returns (kept: Queue, result: ProcessTransactionsResult, sent: seq<seq<nat>>, ghost resent: seq<Signature>)
    ensures kept == Swept(queue, banks)
    ensures Counts(queue, banks, result) && Sum(result) == |queue|
    ensures Resends(queue, banks, resent) && sent == before + Wires(queue, resent)
  {
    var order := SomeOrder(queue.Keys);
    result, kept, sent := ProcessTransactionsResult(0, 0, 0, 0, 0), queue, before;
    SweepStart(queue, banks, order);
    for i := 0 to |order|
      invariant SweepOk(queue, banks, order, i, kept, result)
      invariant SentOk(queue, banks, order, i, before, sent)
    {
      kept, result, sent := Visit(queue, banks, order, i, kept, result, before, sent);
    }
    SweepDone(queue, banks, order, kept, result);
    resent := SentDone(queue, banks, order, before, sent);
  }

  lemma KeptDone(queue: Queue, banks: Banks, kept: Queue)
    requires KeptOk(queue, [], banks, kept)
    ensures kept == Swept(queue, banks)
  {
  }

  // ---------------------------------------------------------------------------
  // The service
  // ---------------------------------------------------------------------------

  class SendTransactionService {
    var transactions: Queue
    var sent: seq<seq<nat>>  // everything that went out on the socket

    ghost predicate Valid()
      reads this
    {
      && |transactions| <= MAX_TRANSACTION_QUEUE_SIZE
      && forall s :: s in transactions ==> transactions[s].signature == s
    }

    constructor ()
      ensures Valid() && transactions == map[] && sent == []
    {
      transactions, sent := map[], [];
    }

    /** A received transaction is sent once in any case, and queued while there is room. */
    method Accept(info: TransactionInfo) returns (queued: bool)
      requires Valid()
      modifies this
      ensures Valid() && queued == (|old(transactions)| < MAX_TRANSACTION_QUEUE_SIZE)
      ensures sent == old(sent) + [info.wireTransaction]
      ensures Step(old(transactions), if queued then Accepted(info) else Overflowed(info), transactions)
    {
      sent := sent + [info.wireTransaction];
      queued := |transactions| < MAX_TRANSACTION_QUEUE_SIZE;
      if queued {
        transactions := transactions[info.signature := info];
      }
    }

    /** The sweep over the queue. */
    method ProcessTransactions(banks: Banks) returns (result: ProcessTransactionsResult, ghost resent: seq<Signature>)
      requires Valid()
      modifies this
      ensures Valid() && Step(old(transactions), Sweep(banks), transactions)
      ensures forall s :: s in transactions <==>
        && s in old(transactions) && s !in banks.rooted && old(transactions)[s].lastValidSlot >= banks.rootSlot
        && (s !in banks.status || banks.status[s])
      ensures forall s :: s in resent <==> s in transactions && s !in banks.status
      ensures Counts(old(transactions), banks, result)
      ensures Resends(old(transactions), banks, resent) && sent == old(sent) + Wires(old(transactions), resent)
      ensures Sum(result) == |old(transactions)| && result.retried + result.retained == |transactions|
    {
      transactions, result, sent, resent := RetainAndCount(transactions, banks, sent);
      KeptSize(old(transactions), banks, result);
      SubsetSize(transactions.Keys, old(transactions).Keys);
    }
  }

  // ---------------------------------------------------------------------------
  // Every run of the retry thread
  // ---------------------------------------------------------------------------

  datatype Event = Accepted(info: TransactionInfo) | Overflowed(info: TransactionInfo) | Sweep(banks: Banks)

  ghost predicate Step(before: Queue, event: Event, after: Queue) {
    match event
    case Accepted(info) =>
      |before| < MAX_TRANSACTION_QUEUE_SIZE && after == before[info.signature := info]
    case Overflowed(_) => |before| >= MAX_TRANSACTION_QUEUE_SIZE && after == before
    case Sweep(banks) => after == Swept(before, banks)
  }

  ghost predicate StepAt(states: seq<Queue>, events: seq<Event>, i: nat)
    requires |states| == |events| + 1 && i < |events|
  {
    Step(states[i], events[i], states[i + 1])
  }

  ghost predicate Run(states: seq<Queue>, events: seq<Event>) {
    && |states| == |events| + 1 && states[0] == map[]
    && forall i :: 0 <= i < |events| ==> StepAt(states, events, i)
  }

  lemma StepSize(before: Queue, event: Event, after: Queue)
    requires Step(before, event, after) && |before| <= MAX_TRANSACTION_QUEUE_SIZE
    ensures |after| <= MAX_TRANSACTION_QUEUE_SIZE
  {
    match event
    case Accepted(info) => assert after.Keys == before.Keys + {info.signature};
    case Overflowed(_) =>
    case Sweep(banks) =>
      assert after.Keys <= before.Keys;
      SubsetSize(after.Keys, before.Keys);
  }

  lemma SubsetSize(a: set<Signature>, b: set<Signature>)
    requires a <= b
    ensures |a| <= |b|
  {
    assert b == a + (b - a);
  }

  /** The queue never outgrows its bound. */
  lemma {:induction false} RunBounded(states: seq<Queue>, events: seq<Event>, k: nat)
    requires Run(states, events) && k <= |events|
    ensures |states[k]| <= MAX_TRANSACTION_QUEUE_SIZE
    decreases k
  {
    if k > 0 {
      RunBounded(states, events, k - 1);
      assert StepAt(states, events, k - 1);
      StepSize(states[k - 1], events[k - 1], states[k]);
    }
  }

  /** A signature leaves only at a sweep that saw it rooted, expired or failed. */
  lemma {:induction false} LeavesOnlyWhenSettled(states: seq<Queue>, events: seq<Event>, i: nat, k: nat, s: Signature)
    returns (j: nat)
    requires Run(states, events) && i <= k <= |events| && s in states[i] && s !in states[k]
    ensures i <= j < k && events[j].Sweep? && s in states[j] && s !in states[j + 1]
    ensures var banks := events[j].banks;
            || s in banks.rooted || states[j][s].lastValidSlot < banks.rootSlot
            || (s in banks.status && !banks.status[s])
    decreases k - i
  {
    assert StepAt(states, events, i);
    if s in states[i + 1] {
      j := LeavesOnlyWhenSettled(states, events, i + 1, k, s);
    } else {
      j := i;
    }
  }

  /** No acceptance of s happens in events i .. k - 1. */
  ghost predicate NotAccepted(events: seq<Event>, i: nat, k: nat, s: Signature) {
    forall t :: i <= t < k && t < |events| ==> !(events[t].Accepted? && events[t].info.signature == s)
  }

  /**
   An entry that is still queued was tried again or retained by every sweep since its acceptance: none
   of them had seen it rooted, failed, or with a root beyond its last valid slot.
   */
  lemma {:induction false} SurvivorPassedEverySweep(
    states: seq<Queue>, events: seq<Event>, i: nat, j: nat, k: nat, s: Signature)
    requires Run(states, events) && i <= j < k <= |events|
    requires s in states[k] && NotAccepted(events, i, k, s) && events[j].Sweep?
    ensures s in states[j] && states[j][s] == states[k][s]
    ensures s !in events[j].banks.rooted
    ensures s !in events[j].banks.status || events[j].banks.status[s]
    ensures states[k][s].lastValidSlot >= events[j].banks.rootSlot
    decreases k
  {
    assert StepAt(states, events, k - 1);
    if j < k - 1 {
      SurvivorPassedEverySweep(states, events, i, j, k - 1, s);
    }
  }

  /** Any sweep with a root past its last valid slot keeps a signature out until it is accepted anew. */
  lemma GoneAfterExpiry(states: seq<Queue>, events: seq<Event>, i: nat, j: nat, k: nat, s: Signature)
    requires Run(states, events)
    requires i <= j < k <= |events| && events[j].Sweep? && NotAccepted(events, i, k, s)
    requires s in states[i] ==> states[i][s].lastValidSlot < events[j].banks.rootSlot
    ensures s !in states[k]
  {
    if s in states[k] {
      SurvivorPassedEverySweep(states, events, i, j, k, s);
      PresentSince(states, events, i, k, s);
    }
  }

  lemma {:induction false} PresentSince(states: seq<Queue>, events: seq<Event>, i: nat, k: nat, s: Signature)
    requires Run(states, events) && i <= k <= |events|
    requires s in states[k] && NotAccepted(events, i, k, s)
    ensures s in states[i] && states[i][s] == states[k][s]
    decreases k
  {
    if i < k {
      assert StepAt(states, events, k - 1);
      PresentSince(states, events, i, k - 1, s);
    }
  }
}
