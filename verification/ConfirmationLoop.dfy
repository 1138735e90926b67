/**
 The send, confirm and re-sign loop of program deployment
 (`send_and_confirm_transactions_with_spinner` in `cli/src/program.rs`).

 The environment is a script of RPC answers, used up in the order in which the loop asks; an answer
 that does not fit its question is an RPC error, and a run that needs more answers is cut off. What is
 proved about every script holds of every run. Whether the leader is due for a refresh, which the clock
 decides, is left open. Signing is injective: a signature is a message together with its blockhash.

 The log records what was sent, what was asked, and the raw answers. All that is proved about a run
 is read off its log: which messages are confirmed, which signing is in force, what each round sent.
 */
module ConfirmationLoop {
  import opened Collections
  import opened Wrappers

  const MAX_STATUS_QUERY_ITEMS: nat := 256
  const SEND_RETRIES: nat := 5

  type Message = nat
  type Hash = nat

  datatype Signature = Signature(message: Message, blockhash: Hash)

  datatype Transaction = Transaction(message: Message, blockhash: Hash) {
    function Sig(): Signature { Signature(message, blockhash) }
  }

  /** A recent blockhash and the last slot at which it is valid. */
  datatype Signing = Signing(blockhash: Hash, lastValidSlot: nat)

  datatype ConfirmationStatus = Processed | Confirmed | Finalized

  datatype TransactionStatus = TransactionStatus(
    confirmations: Option<nat>, confirmationStatus: Option<ConfirmationStatus>)

  /** Past Processed; without a confirmation status, rooted or confirmed more than once. */
  predicate IsConfirmed(status: TransactionStatus) {
    match status.confirmationStatus
    case Some(level) => level != Processed
    case None => status.confirmations.None? || status.confirmations.value > 1
  }

  datatype Answer =
    | Failure
    | EpochInfo(absoluteSlot: nat)
    | SignatureStatuses(statuses: seq<Option<TransactionStatus>>)
    | CurrentSlot(slot: nat)
    | RecentBlockhash(signing: Signing)

  datatype Event =
    | RoundStarted
    | Sent(signatures: set<Signature>)
    | EpochAsked(answer: Answer)
    | StatusesAsked(query: seq<Signature>, answer: Answer)
    | SlotAsked(answer: Answer)
    | BlockhashAsked(unconfirmed: set<Message>, answer: Answer)

  datatype Outcome = Succeeded | TransactionsFailed | RpcError | CutOff

  // ---------------------------------------------------------------------------
  // What a log says
  // ---------------------------------------------------------------------------

  function MessagesOf(signatures: set<Signature>): set<Message> {
    set s | s in signatures :: s.message
  }

  predicate StatusConfirms(status: Option<TransactionStatus>) {
    status.Some? && IsConfirmed(status.value)
  }

  /** The signatures among the first n of a query that the statuses zipped with it confirm. */
  function ConfirmedUpTo(query: seq<Signature>, statuses: seq<Option<TransactionStatus>>, n: nat): set<Signature>
    requires n <= |query| && n <= |statuses|
  {
    if n == 0 then {}
    else ConfirmedUpTo(query, statuses, n - 1) + if StatusConfirms(statuses[n - 1]) then {query[n - 1]} else {}
  }

  function ConfirmedBy(query: seq<Signature>, answer: Answer): set<Signature> {
    match answer
    case SignatureStatuses(statuses) => ConfirmedUpTo(query, statuses, Min(|query|, |statuses|))
    case _ => {}
  }

  /** The status says confirmed or finalized or, where it says neither, rooted or confirmed more than once. */
  ghost predicate FarEnough(status: Option<TransactionStatus>) {
    && status.Some?
    && (|| status.value.confirmationStatus == Some(Confirmed)
        || status.value.confirmationStatus == Some(Finalized)
        || (status.value.confirmationStatus.None?
            && (status.value.confirmations.None? || status.value.confirmations.value > 1)))
  }

  /** The status is missing or says processed or, where it says nothing, confirmed at most once. */
  ghost predicate Short(status: Option<TransactionStatus>) {
    || status.None?
    || status.value.confirmationStatus == Some(Processed)
    || (status.value.confirmationStatus.None?
        && status.value.confirmations.Some? && status.value.confirmations.value <= 1)
  }

  lemma FarEnoughIff(status: Option<TransactionStatus>)
    ensures StatusConfirms(status) <==> FarEnough(status)
    ensures FarEnough(status) <==> !Short(status)
  {
  }

  /** Statuses zipped with their query report the signature far enough. */
  ghost predicate Reported(query: seq<Signature>, statuses: seq<Option<TransactionStatus>>, s: Signature) {
    exists k :: 0 <= k < |query| && k < |statuses| && query[k] == s && FarEnough(statuses[k])
  }

  function AnswerOf(event: Event): seq<Answer> {
    if event.RoundStarted? || event.Sent? then [] else [event.answer]
  }

  /** An answer that ends the run. A query for statuses may fail. */
  predicate Fatal(event: Event) {
    match event
    case EpochAsked(answer) => !answer.EpochInfo?
    case SlotAsked(answer) => !answer.CurrentSlot?
    case BlockhashAsked(_, answer) => !answer.RecentBlockhash?
    case _ => false
  }

  /** What a log amounts to. */
  datatype Progress = Progress(
    last: Option<Event>,          // the latest event
    confirmed: set<Message>,      // messages that some answer has confirmed
    signing: Signing,             // the signing in force: the latest one answered, at first that of the input
    rounds: nat,                  // rounds begun
    sentNow: set<Message>,        // messages sent since the latest round began
    sentBefore: set<Message>,     // messages that every round before the latest has sent, once there is one
    queried: seq<Signature>,      // all signatures asked about, in order
    answers: seq<Answer>,         // all raw answers, in order
    permitted: bool)              // every event was permitted when it happened
  {
    predicate Ended() {
      last.Some? && Fatal(last.value)
    }

    /** The latest answer is a slot past the last one at which the signing in force is valid. */
    predicate Expired() {
      && last.Some? && last.value.SlotAsked? && last.value.answer.CurrentSlot?
      && last.value.answer.slot > signing.lastValidSlot
    }

    /** What the loop may do next. */
    ghost predicate Permits(event: Event) {
      !Ended() &&
      match event
      case RoundStarted => last.Some? && last.value.EpochAsked?
      case Sent(signatures) => rounds > 0 &&
        forall s :: s in signatures ==> s.blockhash == signing.blockhash && s.message !in confirmed
      case EpochAsked(_) => true
      case StatusesAsked(query, _) => 0 < |query| <= 256 &&
        forall s :: s in query ==>
          s.blockhash == signing.blockhash && s.message !in confirmed && s.message in sentNow
      case SlotAsked(_) => last.Some? && last.value.StatusesAsked?
      case BlockhashAsked(unconfirmed, _) =>
        && Expired() && unconfirmed != {} && unconfirmed !! confirmed
        && forall m :: m in unconfirmed ==> Signature(m, signing.blockhash) in queried
    }

    ghost function Next(event: Event): Progress {
      Progress(
        Some(event),
        if event.StatusesAsked? then confirmed + MessagesOf(ConfirmedBy(event.query, event.answer)) else confirmed,
        if event.BlockhashAsked? && event.answer.RecentBlockhash? then event.answer.signing else signing,
        if event.RoundStarted? then rounds + 1 else rounds,
        if event.RoundStarted? then {} else if event.Sent? then sentNow + MessagesOf(event.signatures) else sentNow,
        if !event.RoundStarted? then sentBefore else if rounds <= 1 then sentNow else sentBefore * sentNow,
        if event.StatusesAsked? then queried + event.query else queried,
        answers + AnswerOf(event),
        permitted && Permits(event))
    }

    /** Every round before the latest has sent the message. */
    predicate SentInEarlierRounds(m: Message) {
      rounds <= 1 || m in sentBefore
    }

    /** Every round so far has sent the message. */
    predicate SentInEveryRound(m: Message) {
      rounds == 0 || (SentInEarlierRounds(m) && m in sentNow)
    }
  }

  ghost function Start(first: Signing): Progress {
    Progress(None, {}, first, 0, {}, {}, [], [], true)
  }

  ghost function State(log: seq<Event>, first: Signing): Progress {
    if log == [] then Start(first) else State(log[..|log| - 1], first).Next(log[|log| - 1])
  }

  // ---------------------------------------------------------------------------
  // What holds of every permitted log
  // ---------------------------------------------------------------------------

  lemma {:induction false} PermittedAt(log: seq<Event>, first: Signing, i: nat)
    requires State(log, first).permitted && i < |log|
    ensures State(log[..i], first).permitted && State(log[..i], first).Permits(log[i])
    decreases |log|
  {
    var n := |log| - 1;
    if i < n {
      PermittedAt(log[..n], first, i);
      assert log[..n][..i] == log[..i];
    }
  }

  /**
   A new signing is asked for only right after the answer that the slot is past the last valid slot of
   the signing in force.
   */
  lemma ResignedOnlyAfterExpiry(log: seq<Event>, first: Signing, i: nat)
    requires State(log, first).permitted && i < |log| && log[i].BlockhashAsked?
    ensures i > 0 && log[i - 1].SlotAsked? && log[i - 1].answer.CurrentSlot?
    ensures log[i - 1].answer.slot > State(log[..i], first).signing.lastValidSlot
  {
    PermittedAt(log, first, i);
  }

  /** Event i is the latest one that was answered with a new signing. */
  ghost predicate SignedAt(log: seq<Event>, i: nat, signing: Signing) {
    && i < |log| && log[i].BlockhashAsked? && log[i].answer == RecentBlockhash(signing)
    && forall k :: i < k < |log| && log[k].BlockhashAsked? ==> !log[k].answer.RecentBlockhash?
  }

  /** The signing in force is the latest one answered, or that of the input if none was. */
  lemma {:induction false} SigningInForce(log: seq<Event>, first: Signing)
    ensures (exists i :: SignedAt(log, i, State(log, first).signing))
      || (State(log, first).signing == first
          && forall k :: 0 <= k < |log| && log[k].BlockhashAsked? ==> !log[k].answer.RecentBlockhash?)
    decreases |log|
  {
    if log != [] {
      var n := |log| - 1;
      var before, last := log[..n], log[n];
      SigningInForce(before, first);
      if last.BlockhashAsked? && last.answer.RecentBlockhash? {
        assert SignedAt(log, n, State(log, first).signing);
      } else if i :| SignedAt(before, i, State(before, first).signing) {
        assert SignedAt(log, i, State(log, first).signing);
      }
    }
  }

  /** Answer i of the log reports, at place k of its query, a signing of m far enough along. */
  ghost predicate ReportsAt(log: seq<Event>, i: nat, k: nat, m: Message) {
    && i < |log| && log[i].StatusesAsked? && log[i].answer.SignatureStatuses?
    && k < |log[i].query| && k < |log[i].answer.statuses|
    && log[i].query[k].message == m && FarEnough(log[i].answer.statuses[k])
  }

  lemma {:induction false} ConfirmedUpToIff(
    query: seq<Signature>, statuses: seq<Option<TransactionStatus>>, n: nat, s: Signature)
    requires n <= |query| && n <= |statuses|
    ensures s in ConfirmedUpTo(query, statuses, n)
       <==> exists k :: 0 <= k < n && query[k] == s && FarEnough(statuses[k])
    decreases n
  {
    if n > 0 {
      FarEnoughIff(statuses[n - 1]);
      ConfirmedUpToIff(query, statuses, n - 1, s);
    }
  }

  lemma ConfirmedByIff(query: seq<Signature>, statuses: seq<Option<TransactionStatus>>, m: Message)
    ensures m in MessagesOf(ConfirmedBy(query, SignatureStatuses(statuses)))
       <==> exists k :: 0 <= k < |query| && k < |statuses| && query[k].message == m && FarEnough(statuses[k])
  {
    var n := Min(|query|, |statuses|);
    if m in MessagesOf(ConfirmedUpTo(query, statuses, n)) {
      var s :| s in ConfirmedUpTo(query, statuses, n) && s.message == m;
      ConfirmedUpToIff(query, statuses, n, s);
    }
    forall k | 0 <= k < n && query[k].message == m && FarEnough(statuses[k])
      ensures query[k] in ConfirmedUpTo(query, statuses, n)
    {
      ConfirmedUpToIff(query, statuses, n, query[k]);
    }
  }

  /** A message counts as confirmed exactly when some answer reported one of its signings so. */
  lemma {:induction false} ConfirmedIff(log: seq<Event>, first: Signing, m: Message)
    ensures m in State(log, first).confirmed <==> exists i: nat, k: nat :: ReportsAt(log, i, k, m)
    decreases |log|
  {
    if log != [] {
      var n := |log| - 1;
      var before, last := log[..n], log[n];
      ConfirmedIff(before, first, m);
      forall i: nat, k: nat | ReportsAt(before, i, k, m) ensures ReportsAt(log, i, k, m) {
      }
      forall i: nat, k: nat | ReportsAt(log, i, k, m) && i < n ensures ReportsAt(before, i, k, m) {
      }
      if last.StatusesAsked? && last.answer.SignatureStatuses? {
        ConfirmedByIff(last.query, last.answer.statuses, m);
        forall k | 0 <= k < |last.query| && k < |last.answer.statuses|
          && last.query[k].message == m && FarEnough(last.answer.statuses[k])
          ensures ReportsAt(log, n, k, m)
        {
        }
      }
    }
  }

  lemma {:induction false} ConfirmedGrows(log: seq<Event>, first: Signing, i: nat)
    requires i <= |log|
    ensures State(log[..i], first).confirmed <= State(log, first).confirmed
    decreases |log|
  {
    if i == |log| {
      assert log[..i] == log;
    } else {
      assert log[..|log| - 1][..i] == log[..i];
      ConfirmedGrows(log[..|log| - 1], first, i);
    }
  }

  /** A query for statuses is answered, for all it asks, with statuses that are far enough. */
  ghost predicate ReportsAll(event: Event) {
    event.StatusesAsked? ==>
      && event.answer.SignatureStatuses? && |event.answer.statuses| >= |event.query|
      && forall k :: 0 <= k < |event.query| ==> FarEnough(event.answer.statuses[k])
  }

  ghost predicate AllReported(log: seq<Event>) {
    forall i :: 0 <= i < |log| ==> ReportsAll(log[i])
  }

  /** When all answers report all that was asked, all that was asked is confirmed. */
  lemma {:induction false} AskedIsConfirmed(log: seq<Event>, first: Signing, s: Signature)
    requires AllReported(log) && s in State(log, first).queried
    ensures s.message in State(log, first).confirmed
    decreases |log|
  {
    var n := |log| - 1;
    var before, last := log[..n], log[n];
    if s in State(before, first).queried {
      AskedIsConfirmed(before, first, s);
    } else {
      assert ReportsAll(last);
      ConfirmedByIff(last.query, last.answer.statuses, s.message);
    }
  }

  /** Then nothing is signed again. */
  lemma NothingSignedAgain(log: seq<Event>, first: Signing, i: nat)
    requires State(log, first).permitted && i < |log|
    requires AllReported(log)
    ensures !log[i].BlockhashAsked?
  {
    PermittedAt(log, first, i);
    if log[i].BlockhashAsked? {
      var m :| m in log[i].unconfirmed;
      AskedIsConfirmed(log[..i], first, Signature(m, State(log[..i], first).signing.blockhash));
    }
  }

  /** No status in any answer is far enough along. */
  ghost predicate NothingFarEnough(script: seq<Answer>) {
    forall a, k :: 0 <= a < |script| && script[a].SignatureStatuses? && 0 <= k < |script[a].statuses| ==>
      Short(script[a].statuses[k])
  }

  /** A message is confirmed only by an answer that holds a status far enough along. */
  lemma ConfirmedNeedsReport(log: seq<Event>, first: Signing, m: Message, script: seq<Answer>)
    requires m in State(log, first).confirmed && State(log, first).answers <= script
    ensures !NothingFarEnough(script)
  {
    ConfirmedIff(log, first, m);
    var i: nat, k: nat :| ReportsAt(log, i, k, m);
    AnswerAt(log, first, i);
    var a := |State(log[..i], first).answers|;
    assert script[a] == log[i].answer;
    FarEnoughIff(script[a].statuses[k]);
  }

  predicate Sends(event: Event, m: Message) {
    event.Sent? && m in MessagesOf(event.signatures)
  }

  /** The event sends the message, asks for its status or has it signed again. */
  predicate Touches(event: Event, m: Message) {
    || Sends(event, m)
    || (event.StatusesAsked? && m in MessagesOf(set s | s in event.query))
    || (event.BlockhashAsked? && m in event.unconfirmed)
  }

  /** A confirmed message is left alone. */
  lemma QuietAfterConfirmation(log: seq<Event>, first: Signing, i: nat, j: nat, m: Message)
    requires State(log, first).permitted && i <= j < |log| && m in State(log[..i], first).confirmed
    ensures !Touches(log[j], m)
  {
    PermittedAt(log, first, j);
    assert log[..j][..i] == log[..i];
    ConfirmedGrows(log[..j], first, i);
    ConfirmedIsLeftAlone(State(log[..j], first), log[j], m);
  }

  lemma ConfirmedIsLeftAlone(p: Progress, event: Event, m: Message)
    requires p.Permits(event) && m in p.confirmed
    ensures !Touches(event, m)
  {
  }

  /** The answer of event i is the one of the script that follows those of the events before it. */
  lemma {:induction false} AnswerAt(log: seq<Event>, first: Signing, i: nat)
    requires i < |log| && !log[i].RoundStarted? && !log[i].Sent?
    ensures var earlier := |State(log[..i], first).answers|;
            earlier < |State(log, first).answers| && State(log, first).answers[earlier] == log[i].answer
    decreases |log|
  {
    var n := |log| - 1;
    assert State(log, first).answers == State(log[..n], first).answers + AnswerOf(log[n]);
    if i < n {
      AnswerAt(log[..n], first, i);
      assert log[..n][..i] == log[..i] && log[..n][i] == log[i];
    }
  }

  /** After the round that starts at event i and before any later one, event j sends the message. */
  ghost predicate SentBy(log: seq<Event>, i: nat, j: nat, m: Message) {
    i < j < |log| && Sends(log[j], m) && forall k :: i < k < j ==> !log[k].RoundStarted?
  }

  ghost predicate LatestRound(log: seq<Event>, i: nat) {
    forall k :: i < k < |log| ==> !log[k].RoundStarted?
  }

  lemma {:induction false} RoundsCounted(log: seq<Event>, first: Signing, i: nat)
    requires i < |log| && log[i].RoundStarted?
    ensures State(log, first).rounds > State(log[..i], first).rounds
    decreases |log|
  {
    var n := |log| - 1;
    if i < n {
      RoundsCounted(log[..n], first, i);
      assert log[..n][..i] == log[..i];
    }
  }

  /** Had every round before the latest sent the message, then so had those before an earlier one. */
  lemma EarlierRounds(p: Progress, event: Event, m: Message)
    requires p.Next(event).SentInEarlierRounds(m) && p.rounds > 0
    ensures p.SentInEarlierRounds(m) && (event.RoundStarted? ==> m in p.sentNow && m !in p.Next(event).sentNow)
    ensures !event.RoundStarted? ==> (m in p.Next(event).sentNow <==> m in p.sentNow || Sends(event, m))
  {
  }

  /** The round that starts at event i has sent the message, or is the latest and `now` says it has not. */
  ghost predicate RoundSends(log: seq<Event>, i: nat, m: Message, now: bool) {
    (exists j :: SentBy(log, i, j, m)) || (LatestRound(log, i) && !now)
  }

  lemma RoundSendsStep(log: seq<Event>, event: Event, i: nat, m: Message, now: bool, now': bool)
    requires i < |log| && RoundSends(log, i, m, now)
    requires if event.RoundStarted? then now else now' == (now || Sends(event, m))
    ensures RoundSends(log + [event], i, m, now')
  {
    var longer := log + [event];
    if j :| SentBy(log, i, j, m) {
      assert SentBy(longer, i, j, m);
    } else if Sends(event, m) {
      assert SentBy(longer, i, |log|, m);
    }
  }

  /** Every round has sent the message, except perhaps the latest if it has not done so yet. */
  lemma {:induction false} EveryRoundSends(log: seq<Event>, first: Signing, m: Message, i: nat)
    requires State(log, first).SentInEarlierRounds(m) && i < |log| && log[i].RoundStarted?
    ensures RoundSends(log, i, m, m in State(log, first).sentNow)
    decreases |log|
  {
    var n := |log| - 1;
    if i < n {
      RoundsCounted(log[..n], first, i);
      EarlierRounds(State(log[..n], first), log[n], m);
      EveryRoundSends(log[..n], first, m, i);
      RoundSendsStep(log[..n], log[n], i, m, m in State(log[..n], first).sentNow, m in State(log, first).sentNow);
      assert log[..n] + [log[n]] == log;
    }
  }

  // ---------------------------------------------------------------------------
  // The loop
  // ---------------------------------------------------------------------------

  function Messages(transactions: seq<Transaction>): set<Message> {
    set t | t in transactions :: t.message
  }

  datatype PollResult = AllConfirmed | SignaturesExpired | Waiting | Stopped(outcome: Outcome)

  class Confirmer {
    const script: seq<Answer>
    ghost const input: set<Message>
    ghost const first: Signing
    var transactions: seq<Transaction>
    var pending: map<Signature, Transaction>
    var sendRetries: nat
    var lastValidSlot: nat
    var slot: nat
    var used: nat
    ghost var log: seq<Event>
    ghost var progress: Progress

    /** The log is permitted, its answers are those of the script so far, and no other message is in it. */
    ghost predicate Logged()
      reads this
    {
      && progress == State(log, first) && progress.permitted
      && used <= |script| && progress.answers == script[..used]
      && progress.confirmed <= input && progress.rounds <= SEND_RETRIES + 1
    }

    /** The input is the disjoint union of the confirmed messages and the given unconfirmed ones. */
    ghost predicate Accounted(unconfirmed: set<Message>)
      reads this
    {
      && Logged() && !progress.Ended() && lastValidSlot == progress.signing.lastValidSlot
      && input == progress.confirmed + unconfirmed && progress.confirmed !! unconfirmed
    }

    /** Before a sending round; all earlier rounds have sent what is still unconfirmed. */
    ghost predicate Ready()
      reads this
    {
      && Accounted(Messages(transactions))
      && (forall t :: t in transactions ==> t.blockhash == progress.signing.blockhash)
      && sendRetries <= SEND_RETRIES && progress.rounds == SEND_RETRIES - sendRetries
      && forall m :: m in Messages(transactions) ==> progress.SentInEveryRound(m)
    }

    /** Within a round, when what is pending has been sent. */
    ghost predicate Sending(unconfirmed: set<Message>)
      reads this
    {
      && Accounted(unconfirmed)
      && (forall s :: s in pending ==> pending[s].Sig() == s && s.blockhash == progress.signing.blockhash)
      && sendRetries <= SEND_RETRIES && progress.rounds == SEND_RETRIES + 1 - sendRetries
      && MessagesOf(pending.Keys) <= progress.sentNow
      && forall m :: m in unconfirmed ==> progress.SentInEarlierRounds(m)
    }

    /** Between a sending round and the next one. */
    ghost predicate Polling()
      reads this
    {
      Sending(MessagesOf(pending.Keys))
    }

    /** The status of everything pending has been asked for. */
    ghost predicate Asked()
      reads this
    {
      forall s :: s in pending ==> s in progress.queried
    }

    /** The run is over: the last answer was an error, or there is no further answer. */
    ghost predicate Halted(outcome: Outcome)
      reads this
    {
      Logged() && if progress.Ended() then outcome == RpcError else outcome == CutOff && used == |script|
    }

    constructor (answers: seq<Answer>, signed: seq<Transaction>, signing: Signing)
      requires forall t :: t in signed ==> t.blockhash == signing.blockhash
      ensures Ready() && script == answers && input == Messages(signed) && first == signing && log == []
    {
      script, input, first := answers, Messages(signed), signing;
      transactions, pending, sendRetries, lastValidSlot := signed, map[], SEND_RETRIES, signing.lastValidSlot;
      slot, used, log, progress := 0, 0, [], Start(signing);
    }

    /** Appends an event without an answer. */
    ghost method Record(event: Event)
      requires progress == State(log, first)
      modifies this`log, this`progress
      ensures log == old(log) + [event] && progress == State(log, first) == old(progress).Next(event)
    {
      assert (log + [event])[..|log|] == log;
      log, progress := log + [event], progress.Next(event);
    }

    /** Appends a question together with the next answer of the script, which it uses up. */
    method RecordAnswer(ghost event: Event)
      requires Logged() && used < |script| && AnswerOf(event) == [script[used]] && progress.Permits(event)
      modifies this`log, this`progress, this`used
      ensures used == old(used) + 1 <= |script| && log == old(log) + [event]
      ensures progress == State(log, first) == old(progress).Next(event)
      ensures progress.permitted && progress.answers == script[..used]
    {
      assert script[..used] + [script[used]] == script[..used + 1];
      Record(event);
      used := used + 1;
    }

    /** Asks for the epoch, to find the leader. */
    method AskEpoch(ghost unconfirmed: set<Message>) returns (stop: Option<Outcome>)
      requires Accounted(unconfirmed)
      modifies this`log, this`progress, this`used
      ensures stop.Some? ==> Halted(stop.value)
      ensures stop.None? ==> Accounted(unconfirmed) && used == old(used) + 1
      ensures stop.None? ==> progress == old(progress).Next(EpochAsked(script[old(used)])) && old(log) <= log
    {
      if used == |script| {
        return Some(CutOff);
      }
      var answer := script[used];
      RecordAnswer(EpochAsked(answer));
      stop := if answer.EpochInfo? then None else Some(RpcError);
    }

    method SendOne(tx: Transaction, ghost unconfirmed: set<Message>)
      requires Sending(unconfirmed) && tx.blockhash == progress.signing.blockhash && tx.message in unconfirmed
      modifies this`pending, this`log, this`progress
      ensures Sending(unconfirmed) && progress == old(progress).Next(Sent({tx.Sig()}))
      ensures pending == old(pending)[tx.Sig() := tx]
    {
      Record(Sent({tx.Sig()}));
      PendingInsert(pending, tx);
      pending := pending[tx.Sig() := tx];
    }

    /** Sends one transaction; every now and then the leader is looked up again. */
    method SendNext(i: nat) returns (stop: Option<Outcome>)
      requires i < |transactions| && Sending(Messages(transactions))
      requires forall t :: t in transactions ==> t.blockhash == progress.signing.blockhash
      requires MessagesOf(pending.Keys) == Messages(transactions[..i])
      modifies this`pending, this`log, this`progress, this`used
      ensures stop.Some? ==> Halted(stop.value)
      ensures stop.None? ==> Sending(Messages(transactions)) && progress.signing == old(progress).signing
      ensures stop.None? ==> MessagesOf(pending.Keys) == Messages(transactions[..i + 1])
    {
      MessagesSnoc(transactions, i);
      PendingInsert(pending, transactions[i]);
      SendOne(transactions[i], Messages(transactions));
      stop := None;
      if * {
        stop := AskEpoch(Messages(transactions));
      }
    }

    method StartRound()
      requires Ready() && progress.last.Some? && progress.last.value.EpochAsked?
      modifies this`pending, this`log, this`progress
      ensures Sending(Messages(transactions)) && pending == map[] && progress == old(progress).Next(RoundStarted)
    {
      Record(RoundStarted);
      pending := map[];
    }

    /** The first half of the outer loop: sends all transactions and makes them pending. */
    method SendAll() returns (stop: Option<Outcome>)
      requires Ready()
      modifies this`pending, this`log, this`progress, this`used
      ensures stop.None? ==> Polling() && MessagesOf(pending.Keys) == Messages(transactions)
      ensures stop.Some? ==> Halted(stop.value)
    {
      stop := AskEpoch(Messages(transactions));
      if stop.Some? {
        return;
      }
      StartRound();
      for i := 0 to |transactions|
        invariant Sending(Messages(transactions)) && stop.None?
        invariant forall t :: t in transactions ==> t.blockhash == progress.signing.blockhash
        invariant MessagesOf(pending.Keys) == Messages(transactions[..i])
      {
        stop := SendNext(i);
        if stop.Some? {
          return;
        }
      }
      assert transactions[..|transactions|] == transactions;
    }

    /** Drops the pending transactions that the statuses, zipped with their query, confirm. */
    method DropConfirmed(query: seq<Signature>, statuses: seq<Option<TransactionStatus>>)
      modifies this`pending
      ensures pending == old(pending) - ConfirmedBy(query, SignatureStatuses(statuses))
      ensures forall s :: s in pending <==> s in old(pending) && !Reported(query, statuses, s)
    {
      forall s ensures s in ConfirmedBy(query, SignatureStatuses(statuses)) <==> Reported(query, statuses, s) {
        ConfirmedUpToIff(query, statuses, Min(|query|, |statuses|), s);
      }
      for i := 0 to Min(|query|, |statuses|)
        invariant pending == old(pending) - ConfirmedUpTo(query, statuses, i)
      {
        if statuses[i].Some? && IsConfirmed(statuses[i].value) {
          pending := pending - {query[i]};
        }
      }
    }

    /** One query for statuses. Its failure is ignored. */
    method AskStatuses(query: seq<Signature>) returns (stop: Option<Outcome>)
      requires Polling() && 0 < |query| <= MAX_STATUS_QUERY_ITEMS && forall s :: s in query ==> s in pending
      modifies this`pending, this`log, this`progress, this`used
      ensures stop.Some? ==> Halted(stop.value)
      ensures stop.None? ==> Polling() && used == old(used) + 1
      ensures stop.None? ==> progress == old(progress).Next(StatusesAsked(query, script[old(used)]))
      ensures stop.None? ==> pending == old(pending) - ConfirmedBy(query, script[old(used)])
    {
      SignaturesHaveMessages(pending.Keys);
      if used == |script| {
        return Some(CutOff);
      }
      var answer := script[used];
      RecordAnswer(StatusesAsked(query, answer));
      PendingMinus(query, answer, pending, progress.signing.blockhash);
      DropAnswered(query, answer);
      stop := None;
    }

    method DropAnswered(query: seq<Signature>, answer: Answer)
      modifies this`pending
      ensures pending == old(pending) - ConfirmedBy(query, answer)
    {
      if answer.SignatureStatuses? {
        DropConfirmed(query, answer.statuses);
      }
    }

    method AskSlot() returns (stop: Option<Outcome>)
      requires Polling() && progress.last.Some? && progress.last.value.StatusesAsked?
      modifies this`log, this`progress, this`used, this`slot
      ensures stop.Some? ==> Halted(stop.value)
      ensures stop.None? ==> Polling() && used == old(used) + 1 && script[old(used)] == CurrentSlot(slot)
      ensures stop.None? ==> progress == old(progress).Next(SlotAsked(CurrentSlot(slot)))
    {
      if used == |script| {
        return Some(CutOff);
      }
      var answer := script[used];
      RecordAnswer(SlotAsked(answer));
      if !answer.CurrentSlot? {
        return Some(RpcError);
      }
      slot := answer.slot;
      stop := None;
    }

    /** The statuses of one chunk of the pending signatures, and then the slot. */
    method PollChunk(order: seq<Signature>, start: nat, end: nat) returns (stop: Option<Outcome>)
      requires Polling() && start < end <= |order| && end - start <= MAX_STATUS_QUERY_ITEMS
      requires Distinct(order) && forall i :: start <= i < |order| ==> order[i] in pending
      modifies this`pending, this`log, this`progress, this`used, this`slot
      ensures stop.Some? ==> Halted(stop.value)
      ensures stop.None? ==> Polling() && used == old(used) + 2
      ensures stop.None? ==> progress.queried == old(progress).queried + order[start..end]
      ensures stop.None? ==> progress.last == Some(SlotAsked(CurrentSlot(slot))) && pending.Keys <= old(pending.Keys)
      ensures stop.None? ==> forall i :: end <= i < |order| ==> order[i] in pending
    {
      stop := AskStatuses(order[start..end]);
      if stop.Some? {
        return;
      }
      forall i | end <= i < |order| ensures order[i] in pending {
        LaterStays(order, start, end, i, script[old(used)]);
      }
      stop := AskSlot();
    }

    /** Asks for the status of every pending signature, chunk after chunk. */
    method PollAll(order: seq<Signature>) returns (stop: Option<Outcome>)
      requires Polling() && Distinct(order) && forall s :: s in order <==> s in pending
      modifies this`pending, this`log, this`progress, this`used, this`slot
      ensures stop.Some? ==> Halted(stop.value)
      ensures stop.None? ==> Polling() && progress.queried == old(progress).queried + order && Asked()
      ensures stop.None? && pending != map[] ==> used > old(used) && progress.last == Some(SlotAsked(CurrentSlot(slot)))
    {
      var start := 0;
      stop := None;
      while start < |order|
        invariant Polling() && start <= |order| && stop.None? && used >= old(used) && pending.Keys <= old(pending.Keys)
        invariant progress.queried == old(progress).queried + order[..start]
        invariant forall i :: start <= i < |order| ==> order[i] in pending
        invariant if start == 0 then pending == old(pending)
                  else used > old(used) && progress.last == Some(SlotAsked(CurrentSlot(slot)))
      {
        var end := Min(start + MAX_STATUS_QUERY_ITEMS, |order|);
        stop := PollChunk(order, start, end);
        if stop.Some? {
          return;
        }
        OneMoreChunk(old(progress).queried, order, start, end);
        start := end;
      }
      assert order[..|order|] == order;
    }

    /** Once all that was asked has been reported, nothing is pending. */
    lemma NothingLeft()
      requires Polling() && Asked()
      ensures AllReported(log) ==> pending == map[]
    {
      if AllReported(log) && pending != map[] {
        var s :| s in pending;
        SignaturesHaveMessages(pending.Keys);
        AskedIsConfirmed(log, first, s);
      }
    }

    /** Sends everything pending once more. */
    method Resend() returns (stop: Option<Outcome>)
      requires Polling()
      modifies this`log, this`progress, this`used
      ensures stop.Some? ==> Halted(stop.value)
      ensures stop.None? ==> Polling() && used > old(used) && old(log) <= log
      ensures stop.None? ==>
        progress == old(progress).Next(EpochAsked(script[old(used)])).Next(Sent(pending.Keys))
    {
      stop := AskEpoch(MessagesOf(pending.Keys));
      if stop.None? {
        SendPending();
      }
    }

    method SendPending()
      requires Polling()
      modifies this`log, this`progress
      ensures Polling() && progress == old(progress).Next(Sent(pending.Keys)) && old(log) <= log
    {
      SignaturesHaveMessages(pending.Keys);
      Record(Sent(pending.Keys));
    }

    /** One pass of the inner loop: polls, then decides whether to stop, to sign again, or to send again and wait. */
    method Poll(order: seq<Signature>) returns (result: PollResult)
      requires Polling() && Distinct(order) && forall s :: s in order <==> s in pending
      modifies this`pending, this`log, this`progress, this`used, this`slot
      ensures result.Stopped? ==> Halted(result.outcome)
      ensures !result.Stopped? ==> Polling() && progress.queried == old(progress).queried + order
      ensures result.AllConfirmed? ==> pending == map[]
      ensures result.SignaturesExpired? ==> pending != map[] && progress.Expired() && Asked()
      ensures result.Waiting? ==> pending != map[] && used > old(used) && progress.last == Some(Sent(pending.Keys))
      ensures AllReported(log) ==> result.AllConfirmed? || result.Stopped?
    {
      var stop := PollAll(order);
      if stop.Some? {
        return Stopped(stop.value);
      }
      NothingLeft();
      if pending == map[] {
        return AllConfirmed;
      }
      if slot > lastValidSlot {
        return SignaturesExpired;
      }
      stop := Resend();
      result := if stop.Some? then Stopped(stop.value) else Waiting;
    }

    /** After expiry: gives up when no retry is left, and otherwise signs what is pending again. */
    method Resign(order: seq<Signature>) returns (outcome: Option<Outcome>)
      requires Polling() && progress.Expired() && Asked() && pending != map[]
      requires forall s :: s in order <==> s in pending
      modifies this`log, this`progress, this`used, this`sendRetries, this`lastValidSlot, this`transactions
      ensures outcome == Some(TransactionsFailed) <==> old(sendRetries) == 0
      ensures outcome == Some(TransactionsFailed) ==> Concluded(TransactionsFailed)
      ensures outcome.Some? && outcome.value != TransactionsFailed ==> Halted(outcome.value)
      ensures outcome.None? ==>
        && Ready() && sendRetries == old(sendRetries) - 1 && Messages(transactions) == MessagesOf(pending.Keys)
        && old(used) < |script| && script[old(used)] == RecentBlockhash(progress.signing)
        && progress == old(progress).Next(BlockhashAsked(MessagesOf(pending.Keys), script[old(used)]))
    {
      if sendRetries == 0 {
        FailureConcludes();
        return Some(TransactionsFailed);
      }
      if used == |script| {
        return Some(CutOff);
      }
      var answer := script[used];
      AskBlockhash(answer);
      if !answer.RecentBlockhash? {
        return Some(RpcError);
      }
      SignPending(order, answer.signing);
      outcome := None;
    }

    lemma FailureConcludes()
      requires Polling() && progress.Expired() && Asked() && pending != map[] && sendRetries == 0
      ensures Concluded(TransactionsFailed)
    {
      PendingAsked(pending, progress.queried, progress.signing.blockhash);
    }

    /** What is pending is unconfirmed and waits for a new signing; all rounds so far have sent it. */
    ghost predicate Resigning()
      reads this
    {
      && Logged() && !progress.Ended()
      && input == progress.confirmed + MessagesOf(pending.Keys) && progress.confirmed !! MessagesOf(pending.Keys)
      && sendRetries <= SEND_RETRIES && progress.rounds == SEND_RETRIES - sendRetries
      && forall m :: m in MessagesOf(pending.Keys) ==> progress.SentInEveryRound(m)
    }

    /** Uses up a retry and asks for a new signing. */
    method AskBlockhash(answer: Answer)
      requires Polling() && progress.Expired() && Asked() && pending != map[] && sendRetries > 0
      requires used < |script| && script[used] == answer
      modifies this`log, this`progress, this`used, this`sendRetries
      ensures Logged() && used == old(used) + 1 && sendRetries == old(sendRetries) - 1
      ensures progress == old(progress).Next(BlockhashAsked(MessagesOf(pending.Keys), answer))
      ensures answer.RecentBlockhash? ==> Resigning()
    {
      PendingAsked(pending, progress.queried, progress.signing.blockhash);
      sendRetries := sendRetries - 1;
      RecordAnswer(BlockhashAsked(MessagesOf(pending.Keys), answer));
    }

    /** What each outcome of a run means. */
    ghost predicate Concluded(outcome: Outcome)
      reads this
    {
      Logged() &&
      match outcome
      case Succeeded => !progress.Ended() && progress.confirmed == input
      case TransactionsFailed =>
        && progress.Expired() && progress.rounds == SEND_RETRIES + 1 && progress.confirmed != input
        && forall m :: m in input - progress.confirmed ==>
             progress.SentInEveryRound(m) && Signature(m, progress.signing.blockhash) in progress.queried
      case RpcError => progress.Ended()
      case CutOff => !progress.Ended() && used == |script|
    }

    method SignPending(order: seq<Signature>, signing: Signing)
      requires Resigning() && progress.signing == signing && forall s :: s in order <==> s in pending
      modifies this`lastValidSlot, this`transactions
      ensures Ready() && Messages(transactions) == MessagesOf(pending.Keys)
    {
      lastValidSlot := signing.lastValidSlot;
      SameMessages(order, pending, signing.blockhash);
      transactions := SignAgain(order, signing.blockhash);
    }
  }

  lemma PendingAsked(pending: map<Signature, Transaction>, queried: seq<Signature>, hash: Hash)
    requires pending != map[] && forall s :: s in pending ==> s in queried && s.blockhash == hash
    ensures MessagesOf(pending.Keys) != {}
    ensures forall m :: m in MessagesOf(pending.Keys) ==> Signature(m, hash) in queried
  {
    NonemptyMessages(pending);
    forall m | m in MessagesOf(pending.Keys) ensures Signature(m, hash) in queried {
      var s :| s in pending.Keys && s.message == m;
      assert s == Signature(m, hash);
    }
  }

  lemma PendingInsert(pending: map<Signature, Transaction>, tx: Transaction)
    ensures MessagesOf(pending[tx.Sig() := tx].Keys) == MessagesOf(pending.Keys) + {tx.message}
  {
    var after := pending[tx.Sig() := tx];
    assert after.Keys == pending.Keys + {tx.Sig()};
    MessagesOfUnion(pending.Keys, {tx.Sig()});
    assert MessagesOf({tx.Sig()}) == {tx.message};
  }

  lemma MessagesOfUnion(a: set<Signature>, b: set<Signature>)
    ensures MessagesOf(a + b) == MessagesOf(a) + MessagesOf(b)
  {
    forall m | m in MessagesOf(a) + MessagesOf(b) ensures m in MessagesOf(a + b) {
      var s :| (s in a || s in b) && s.message == m;
      assert s in a + b;
    }
  }

  lemma MessagesSnoc(transactions: seq<Transaction>, i: nat)
    requires i < |transactions|
    ensures Messages(transactions[..i + 1]) == Messages(transactions[..i]) + {transactions[i].message}
    ensures Messages(transactions[..i + 1]) <= Messages(transactions)
    ensures transactions[i] in transactions && transactions[i].message in Messages(transactions)
  {
    assert transactions[..i + 1] == transactions[..i] + [transactions[i]];
    forall m | m in Messages(transactions[..i]) + {transactions[i].message}
      ensures m in Messages(transactions[..i + 1])
    {
      if m == transactions[i].message {
        assert transactions[i] in transactions[..i + 1];
      }
    }
  }

  lemma SignaturesHaveMessages(pending: set<Signature>)
    ensures forall s :: s in pending ==> s.message in MessagesOf(pending)
  {
  }

  /** Of one signing, dropping signatures drops their messages. */
  lemma PendingMinus(query: seq<Signature>, answer: Answer, pending: map<Signature, Transaction>, hash: Hash)
    requires forall s :: s in pending ==> s.blockhash == hash
    requires forall s :: s in query ==> s in pending
    ensures var dropped := ConfirmedBy(query, answer);
            && MessagesOf((pending - dropped).Keys) == MessagesOf(pending.Keys) - MessagesOf(dropped)
            && MessagesOf(dropped) <= MessagesOf(pending.Keys)
  {
    var dropped := ConfirmedBy(query, answer);
    forall s | s in dropped ensures s in pending {
      ConfirmedUpToIff(query, answer.statuses, Min(|query|, |answer.statuses|), s);
    }
    var after := pending - dropped;
    forall m | m in MessagesOf(pending.Keys) - MessagesOf(dropped) ensures m in MessagesOf(after.Keys) {
      var s :| s in pending && s.message == m;
      assert s in after.Keys;
    }
    forall m | m in MessagesOf(after.Keys) ensures m in MessagesOf(pending.Keys) && m !in MessagesOf(dropped) {
      var s :| s in after.Keys && s.message == m;
      assert s in pending && s == Signature(m, hash);
    }
  }

  lemma OneMoreChunk(queried: seq<Signature>, order: seq<Signature>, start: nat, end: nat)
    requires start <= end <= |order|
    ensures (queried + order[..start]) + order[start..end] == queried + order[..end]
  {
  }

  lemma LaterStays(order: seq<Signature>, start: nat, end: nat, i: nat, answer: Answer)
    requires Distinct(order) && start <= end <= i < |order|
    ensures order[i] !in ConfirmedBy(order[start..end], answer)
  {
    var query := order[start..end];
    if order[i] in ConfirmedBy(query, answer) {
      ConfirmedUpToIff(query, answer.statuses, Min(|query|, |answer.statuses|), order[i]);
    }
  }

  function SignAgain(order: seq<Signature>, hash: Hash): (signed: seq<Transaction>)
    ensures forall t :: t in signed ==> t.blockhash == hash
  {
    seq(|order|, i requires 0 <= i < |order| => Transaction(order[i].message, hash))
  }

  lemma SameMessages(order: seq<Signature>, pending: map<Signature, Transaction>, hash: Hash)
    requires forall s :: s in order <==> s in pending
    ensures Messages(SignAgain(order, hash)) == MessagesOf(pending.Keys)
  {
    var transactions := SignAgain(order, hash);
    forall m | m in MessagesOf(pending.Keys) ensures m in Messages(transactions) {
      var s :| s in pending.Keys && s.message == m;
      var i :| 0 <= i < |order| && order[i] == s;
      assert transactions[i].message == m && transactions[i] in transactions;
    }
    forall m | m in Messages(transactions) ensures m in MessagesOf(pending.Keys) {
      var t :| t in transactions && t.message == m;
      var i :| 0 <= i < |transactions| && transactions[i] == t;
      assert order[i] in order && order[i].message == m;
    }
  }

  // ---------------------------------------------------------------------------
  // Whole runs
  // ---------------------------------------------------------------------------

  /** The inner loop: polls until everything is confirmed or the signatures have expired. */
  method PollUntilDecided(c: Confirmer) returns (outcome: Option<Outcome>)
    requires c.Polling()
    modifies c`pending, c`log, c`progress, c`used, c`slot
    ensures outcome == Some(Succeeded) ==> c.Polling() && c.pending == map[]
    ensures outcome.None? ==> c.Polling() && c.pending != map[] && c.progress.Expired() && c.Asked()
    ensures outcome.Some? && outcome.value != Succeeded ==> c.Halted(outcome.value)
  {
    while true
      invariant c.Polling()
      decreases |c.script| - c.used
    {
      var order := SomeOrder(c.pending.Keys);
      var result := c.Poll(order);
      match result
      case AllConfirmed => return Some(Succeeded);
      case SignaturesExpired => return None;
      case Stopped(stop) => return Some(stop);
      case Waiting =>
    }
  }

  lemma SuccessNeedsReports(log: seq<Event>, first: Signing, signed: seq<Transaction>, script: seq<Answer>)
    requires State(log, first).answers <= script
    ensures signed != [] && NothingFarEnough(script) ==> State(log, first).confirmed != Messages(signed)
  {
    if signed != [] && NothingFarEnough(script) && State(log, first).confirmed == Messages(signed) {
      assert signed[0] in signed && signed[0].message in Messages(signed);
      ConfirmedNeedsReport(log, first, signed[0].message, script);
    }
  }

  lemma FailureNeedsSilence(log: seq<Event>, first: Signing, input: set<Message>)
    requires State(log, first).permitted
    ensures AllReported(log) ==>
      && (forall i :: 0 <= i < |log| ==> !log[i].BlockhashAsked?)
      && forall m :: Signature(m, State(log, first).signing.blockhash) in State(log, first).queried ==>
           m in State(log, first).confirmed
  {
    if AllReported(log) {
      forall i | 0 <= i < |log| ensures !log[i].BlockhashAsked? {
        NothingSignedAgain(log, first, i);
      }
      forall m | Signature(m, State(log, first).signing.blockhash) in State(log, first).queried
        ensures m in State(log, first).confirmed
      {
        AskedIsConfirmed(log, first, Signature(m, State(log, first).signing.blockhash));
      }
    }
  }

  /**
   Every run. Success means that an answer has confirmed each message under some signing; failure, that
   six rounds have each sent every message left and the last signing has expired too.
   */
  method SendAndConfirm(signed: seq<Transaction>, signing: Signing, script: seq<Answer>)
    returns (outcome: Outcome, ghost log: seq<Event>)
    requires forall t :: t in signed ==> t.blockhash == signing.blockhash
    ensures State(log, signing).permitted && State(log, signing).answers <= script
    ensures State(log, signing).confirmed <= Messages(signed) && State(log, signing).rounds <= 6
    ensures outcome == Succeeded ==> State(log, signing).confirmed == Messages(signed)
    ensures outcome == TransactionsFailed ==>
      && State(log, signing).rounds == 6 && State(log, signing).Expired()
      && State(log, signing).confirmed != Messages(signed)
      && forall m :: m in Messages(signed) - State(log, signing).confirmed ==>
           State(log, signing).SentInEveryRound(m)
           && Signature(m, State(log, signing).signing.blockhash) in State(log, signing).queried
    ensures signed != [] && NothingFarEnough(script) ==> outcome != Succeeded
    ensures AllReported(log) ==>
      outcome != TransactionsFailed && forall i :: 0 <= i < |log| ==> !log[i].BlockhashAsked?
    ensures outcome == RpcError <==> State(log, signing).Ended()
    ensures outcome == CutOff ==> State(log, signing).answers == script
  {
    var c := new Confirmer(script, signed, signing);
    while true
      invariant c.Ready() && fresh(c)
      invariant c.script == script && c.input == Messages(signed) && c.first == signing
      decreases c.sendRetries
    {
      var stop := RunRound(c);
      if stop.Some? {
        SuccessNeedsReports(c.log, signing, signed, script);
        FailureNeedsSilence(c.log, signing, Messages(signed));
        return stop.value, c.log;
      }
    }
  }

  /** One pass of the outer loop: send, poll, and sign again what has expired. */
  method RunRound(c: Confirmer) returns (outcome: Option<Outcome>)
    requires c.Ready()
    modifies c
    ensures outcome.None? ==> c.Ready() && c.sendRetries < old(c.sendRetries)
    ensures outcome.Some? ==> c.Concluded(outcome.value)
  {
    outcome := c.SendAll();
    if outcome.Some? {
      return;
    }
    outcome := PollUntilDecided(c);
    if outcome.Some? {
      return;
    }
    var order := SomeOrder(c.pending.Keys);
    outcome := c.Resign(order);
  }

  lemma NonemptyMessages(pending: map<Signature, Transaction>)
    requires pending != map[]
    ensures MessagesOf(pending.Keys) != {}
  {
    var s :| s in pending;
    assert s in pending.Keys && s.message in MessagesOf(pending.Keys);
  }
}
