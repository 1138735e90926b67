/**
 Block production accounting (`process_show_block_production` in `cli/src/cluster_query.rs`), with the
 epoch arithmetic it relies on (`sdk/program/src/epoch_schedule.rs`).

 RPC answers are parameters. Confirmed blocks are strictly increasing and lie in the window asked for.
 */
module BlockProduction {
  import opened Collections
  import opened Wrappers

  const MINIMUM_SLOTS_PER_EPOCH: nat := 32
  const UNKNOWN_LEADER: string := "?"

  // ---------------------------------------------------------------------------
  // Epochs
  // ---------------------------------------------------------------------------

  function Pow2(n: nat): (p: nat)
    ensures p > 0
  {
    if n == 0 then 1 else 2 * Pow2(n - 1)
  }

  datatype EpochSchedule = EpochSchedule(slotsPerEpoch: nat, firstNormalEpoch: nat, firstNormalSlot: nat) {
    /** What every schedule built by `EpochSchedule::custom` satisfies, with or without warmup. */
    ghost predicate Valid() {
      && slotsPerEpoch >= MINIMUM_SLOTS_PER_EPOCH
      && firstNormalSlot == (Pow2(firstNormalEpoch) - 1) * MINIMUM_SLOTS_PER_EPOCH
    }

    function SlotsInEpoch(epoch: nat): nat {
      if epoch < firstNormalEpoch then Pow2(epoch) * MINIMUM_SLOTS_PER_EPOCH else slotsPerEpoch
    }

    function FirstSlotInEpoch(epoch: nat): nat {
      if epoch <= firstNormalEpoch then (Pow2(epoch) - 1) * MINIMUM_SLOTS_PER_EPOCH
      else (epoch - firstNormalEpoch) * slotsPerEpoch + firstNormalSlot
    }

    function LastSlotInEpoch(epoch: nat): int {
      FirstSlotInEpoch(epoch) + SlotsInEpoch(epoch) - 1
    }
  }

  /** Epochs tile the slots: each begins right after the last slot of the one before. */
  lemma EpochsTile(schedule: EpochSchedule, epoch: nat)
    requires schedule.Valid()
    ensures schedule.FirstSlotInEpoch(epoch + 1) == schedule.LastSlotInEpoch(epoch) + 1
    ensures schedule.FirstSlotInEpoch(epoch) <= schedule.LastSlotInEpoch(epoch)
  {
    if epoch >= schedule.firstNormalEpoch {
      var n := epoch - schedule.firstNormalEpoch;
      assert (n + 1) * schedule.slotsPerEpoch == n * schedule.slotsPerEpoch + schedule.slotsPerEpoch;
    }
  }

  /** The first epoch begins at slot 0; during warmup each epoch is twice as long as the one before, from 32 slots on. */
  lemma EpochLengths(schedule: EpochSchedule, epoch: nat)
    ensures schedule.FirstSlotInEpoch(0) == 0
    ensures schedule.firstNormalEpoch > 0 ==> schedule.SlotsInEpoch(0) == 32
    ensures epoch + 1 < schedule.firstNormalEpoch ==> schedule.SlotsInEpoch(epoch + 1) == 2 * schedule.SlotsInEpoch(epoch)
    ensures epoch >= schedule.firstNormalEpoch ==> schedule.SlotsInEpoch(epoch) == schedule.slotsPerEpoch
  {
    assert Pow2(0) == 1;
  }

  lemma {:induction false} EpochsAscend(schedule: EpochSchedule, epoch: nat, later: nat)
    requires schedule.Valid() && epoch <= later
    ensures schedule.FirstSlotInEpoch(epoch) <= schedule.FirstSlotInEpoch(later)
    decreases later
  {
    if epoch < later {
      EpochsAscend(schedule, epoch, later - 1);
      EpochsTile(schedule, later - 1);
    }
  }

  // ---------------------------------------------------------------------------
  // The window of slots
  // ---------------------------------------------------------------------------

  datatype Window = Window(epoch: nat, startSlot: nat, endSlot: nat, startIndex: nat, endIndex: nat, totalSlots: nat)

  datatype WindowError =
    | EpochInFuture(epoch: nat)
    | LedgerNotAvailable(startSlot: nat, endSlot: nat, minimumLedgerSlot: nat)

  function RequestedStart(first: nat, endSlot: nat, slotLimit: Option<nat>): nat {
    match slotLimit
    case Some(limit) => Max(if endSlot < limit then 0 else endSlot - limit, first)
    case None => first
  }

  /** No subtraction underflows: the window lies in its epoch and is not empty. */
  function SlotWindow(
    schedule: EpochSchedule, currentEpoch: nat, absoluteSlot: nat, requested: Option<nat>, slotLimit: Option<nat>,
    minimumLedgerSlot: nat): (r: Result<Window, WindowError>)
    requires schedule.Valid() && schedule.FirstSlotInEpoch(currentEpoch) <= absoluteSlot
    ensures var epoch := if requested.Some? then requested.value else currentEpoch;
            var last := schedule.LastSlotInEpoch(epoch);
            var end := if absoluteSlot < last then absoluteSlot else last;
            var first := schedule.FirstSlotInEpoch(epoch);
            var lower := if slotLimit.Some? && end - slotLimit.value > first then end - slotLimit.value else first;
            && (r.Ok? <==> epoch <= currentEpoch && minimumLedgerSlot <= end)
            && (r.Ok? ==> r.value.epoch == epoch && r.value.endSlot == end)
            && (r.Ok? ==> r.value.startSlot == if minimumLedgerSlot > lower then minimumLedgerSlot else lower)
            && (epoch > currentEpoch ==> r == Err(EpochInFuture(epoch)))
            && (epoch <= currentEpoch && minimumLedgerSlot > end ==>
                  lower >= 0 && end >= 0 && r == Err(LedgerNotAvailable(lower, end, minimumLedgerSlot)))
    ensures r.Ok? ==>
      && r.value.epoch <= currentEpoch && r.value.startSlot <= r.value.endSlot <= absoluteSlot
      && schedule.FirstSlotInEpoch(r.value.epoch) <= r.value.startSlot
      && r.value.endSlot <= schedule.LastSlotInEpoch(r.value.epoch)
      && r.value.totalSlots == r.value.endSlot - r.value.startSlot + 1
      && r.value.startIndex + schedule.FirstSlotInEpoch(r.value.epoch) == r.value.startSlot
      && r.value.endIndex + schedule.FirstSlotInEpoch(r.value.epoch) == r.value.endSlot
      && minimumLedgerSlot <= r.value.startSlot
  {
    var epoch := if requested.Some? then requested.value else currentEpoch;
    if epoch > currentEpoch then Err(EpochInFuture(epoch))
    else
      EpochsAscend(schedule, epoch, currentEpoch);
      EpochsTile(schedule, epoch);
      var first := schedule.FirstSlotInEpoch(epoch);
      var endSlot := Min(absoluteSlot, schedule.LastSlotInEpoch(epoch));
      var asked := RequestedStart(first, endSlot, slotLimit);
      if minimumLedgerSlot > endSlot then Err(LedgerNotAvailable(asked, endSlot, minimumLedgerSlot))
      else
        var startSlot := if minimumLedgerSlot > asked then minimumLedgerSlot else asked;
        var startIndex, endIndex := startSlot - first, endSlot - first;
        Ok(Window(epoch, startSlot, endSlot, startIndex, endIndex, endIndex - startIndex + 1))
  }

  /**
   A limit of n slots is exceeded by one slot unless the epoch or the ledger already provides no more
   than n slots up to the end of the window.
   */
  lemma SlotLimitHoldsIff(
    schedule: EpochSchedule, currentEpoch: nat, absoluteSlot: nat, requested: Option<nat>, limit: nat,
    minimumLedgerSlot: nat)
    requires schedule.Valid() && schedule.FirstSlotInEpoch(currentEpoch) <= absoluteSlot
    requires SlotWindow(schedule, currentEpoch, absoluteSlot, requested, Some(limit), minimumLedgerSlot).Ok?
    ensures var window := SlotWindow(schedule, currentEpoch, absoluteSlot, requested, Some(limit), minimumLedgerSlot).value;
            var epoch := if requested.Some? then requested.value else currentEpoch;
            var end := if absoluteSlot < schedule.LastSlotInEpoch(epoch) then absoluteSlot else schedule.LastSlotInEpoch(epoch);
            var available := end + 1 - Max(schedule.FirstSlotInEpoch(epoch), minimumLedgerSlot);
            && (window.totalSlots <= limit <==> available <= limit)
            && window.totalSlots == Min(limit + 1, available)
  {
  }

  /** One slot was asked for, two are reported. */
  lemma SlotLimitExceeded()
    ensures var schedule := EpochSchedule(32, 0, 0);
            && schedule.Valid()
            && SlotWindow(schedule, 0, 10, None, Some(1), 0).Ok?
            && SlotWindow(schedule, 0, 10, None, Some(1), 0).value.totalSlots == 2
  {
  }

  // ---------------------------------------------------------------------------
  // The leader of every slot
  // ---------------------------------------------------------------------------

  ghost predicate Leads(schedule: seq<(string, seq<nat>)>, leader: string, slotIndex: nat) {
    exists e :: 0 <= e < |schedule| && schedule[e].0 == leader && slotIndex in schedule[e].1
  }

  ghost predicate Assigned(schedule: seq<(string, seq<nat>)>, slotIndex: nat) {
    exists e :: 0 <= e < |schedule| && slotIndex in schedule[e].1
  }

  /** Each place holds a leader of its slot, or a question mark if the schedule names none. */
  ghost predicate LeadersOk(schedule: seq<(string, seq<nat>)>, startIndex: nat, leaders: seq<string>) {
    forall i :: 0 <= i < |leaders| ==>
      if Assigned(schedule, startIndex + i) then Leads(schedule, leaders[i], startIndex + i)
      else leaders[i] == "?"
  }

  lemma AssignOne(
    schedule: seq<(string, seq<nat>)>, leader: string, slots: seq<nat>, slotIndex: nat,
    startIndex: nat, leaders: seq<string>, leaders': seq<string>)
    requires LeadersOk(schedule + [(leader, slots)], startIndex, leaders)
    requires leaders' == if startIndex <= slotIndex < startIndex + |leaders|
                         then leaders[slotIndex - startIndex := leader] else leaders
    ensures LeadersOk(schedule + [(leader, slots + [slotIndex])], startIndex, leaders')
  {
    var before, after := schedule + [(leader, slots)], schedule + [(leader, slots + [slotIndex])];
    assert forall e :: 0 <= e < |schedule| ==> before[e] == schedule[e] == after[e];
    assert before[|schedule|] == (leader, slots) && after[|schedule|] == (leader, slots + [slotIndex]);
    forall i | 0 <= i < |leaders'|
      ensures if Assigned(after, startIndex + i) then Leads(after, leaders'[i], startIndex + i)
              else leaders'[i] == UNKNOWN_LEADER
    {
      var x := startIndex + i;
      if x == slotIndex {
        assert after[|schedule|].0 == leaders'[i] && x in after[|schedule|].1;
      } else {
        assert Assigned(after, x) <==> Assigned(before, x);
        if Assigned(before, x) {
          var e :| 0 <= e < |before| && before[e].0 == leaders[i] && x in before[e].1;
          assert after[e].0 == leaders'[i] && x in after[e].1;
        }
      }
    }
  }

  lemma NoSlotsYet(schedule: seq<(string, seq<nat>)>, leader: string, startIndex: nat, leaders: seq<string>)
    requires LeadersOk(schedule, startIndex, leaders)
    ensures LeadersOk(schedule + [(leader, [])], startIndex, leaders)
  {
    var after := schedule + [(leader, [])];
    assert forall e :: 0 <= e < |schedule| ==> after[e] == schedule[e];
    forall i | 0 <= i < |leaders|
      ensures if Assigned(after, startIndex + i) then Leads(after, leaders[i], startIndex + i)
              else leaders[i] == "?"
    {
      var x := startIndex + i;
      assert Assigned(after, x) <==> Assigned(schedule, x);
      if Assigned(schedule, x) {
        var e :| 0 <= e < |schedule| && schedule[e].0 == leaders[i] && x in schedule[e].1;
        assert after[e].0 == leaders[i];
      }
    }
  }

  /** The schedule is a hash map: `schedule` lists it in some order. */
  method FillLeaders(schedule: seq<(string, seq<nat>)>, startIndex: nat, endIndex: nat) returns (leaders: seq<string>)
    requires startIndex <= endIndex
    ensures |leaders| == endIndex - startIndex + 1 && LeadersOk(schedule, startIndex, leaders)
  {
    leaders := seq(endIndex - startIndex + 1, _ => UNKNOWN_LEADER);
    for e := 0 to |schedule|
      invariant |leaders| == endIndex - startIndex + 1
      invariant LeadersOk(schedule[..e], startIndex, leaders)
    {
      var (leader, slots) := schedule[e];
      NoSlotsYet(schedule[..e], leader, startIndex, leaders);
      assert slots[..0] == [];
      for k := 0 to |slots|
        invariant |leaders| == endIndex - startIndex + 1
        invariant LeadersOk(schedule[..e] + [(leader, slots[..k])], startIndex, leaders)
      {
        ghost var before := leaders;
        if slots[k] >= startIndex && slots[k] <= endIndex {
          leaders := leaders[slots[k] - startIndex := leader];
        }
        AssignOne(schedule[..e], leader, slots[..k], slots[k], startIndex, before, leaders);
        assert slots[..k] + [slots[k]] == slots[..k + 1];
      }
      assert slots[..|slots|] == slots && schedule[..e] + [(leader, slots)] == schedule[..e + 1];
    }
    assert schedule[..|schedule|] == schedule;
  }

  // ---------------------------------------------------------------------------
  // Merging slots with confirmed blocks
  // ---------------------------------------------------------------------------

  datatype SlotStatus = SlotStatus(slot: nat, leader: string, skipped: bool)

  type Counters = map<string, nat>

  ghost predicate StrictlyIncreasing(slots: seq<nat>) {
    forall i, j :: 0 <= i < j < |slots| ==> slots[i] < slots[j]
  }

  /** How many of the first n places belong to the leader and carry the flag. */
  function CountOf(leaders: seq<string>, flags: seq<bool>, n: nat, leader: string): nat
    requires n <= |leaders| == |flags|
  {
    if n == 0 then 0
    else CountOf(leaders, flags, n - 1, leader) + if leaders[n - 1] == leader && flags[n - 1] then 1 else 0
  }

  function AllFlags(n: nat): seq<bool> {
    seq(n, _ => true)
  }

  function SkipFlags(startSlot: nat, n: nat, confirmed: seq<nat>): seq<bool> {
    seq(n, i requires 0 <= i => startSlot + i !in confirmed)
  }

  /** The counters hold, for exactly the leaders of the first n places, how often their flag is set. */
  ghost predicate CountersOk(counters: Counters, leaders: seq<string>, flags: seq<bool>, n: nat)
    requires n <= |leaders| == |flags|
  {
    && (forall l :: l in counters <==> l in leaders[..n])
    && (forall l :: l in counters ==> counters[l] == CountOf(leaders, flags, n, l))
  }

  ghost function Counted(leaders: seq<string>, flags: seq<bool>, n: nat, leader: string): set<int>
    requires n <= |leaders| == |flags|
  {
    set i | 0 <= i < n && leaders[i] == leader && flags[i]
  }

  lemma CountedStep(leaders: seq<string>, flags: seq<bool>, n: nat, leader: string)
    requires n < |leaders| == |flags|
    ensures Counted(leaders, flags, n + 1, leader)
      == Counted(leaders, flags, n, leader) + if leaders[n] == leader && flags[n] then {n as int} else {}
  {
  }

  lemma {:induction false} CountIsSize(leaders: seq<string>, flags: seq<bool>, n: nat, leader: string)
    requires n <= |leaders| == |flags|
    ensures CountOf(leaders, flags, n, leader) == |Counted(leaders, flags, n, leader)|
    decreases n
  {
    if n > 0 {
      CountIsSize(leaders, flags, n - 1, leader);
      CountedStep(leaders, flags, n - 1, leader);
    }
  }

  lemma {:induction false} CountOfAbsent(leaders: seq<string>, flags: seq<bool>, n: nat, leader: string)
    requires n <= |leaders| == |flags| && leader !in leaders[..n]
    ensures CountOf(leaders, flags, n, leader) == 0
    decreases n
  {
    if n > 0 {
      assert leaders[n - 1] in leaders[..n];
      assert leader !in leaders[..n - 1] by {
        assert leaders[..n - 1] == leaders[..n][..n - 1];
      }
      CountOfAbsent(leaders, flags, n - 1, leader);
    }
  }

  /** `entry(leader).or_insert(0)` followed by an increment if the flag is set. */
  method Bump(counters: Counters, leaders: seq<string>, n: nat, flag: bool, ghost flags: seq<bool>)
    returns (counters': Counters)
    requires n < |leaders| == |flags| && flags[n] == flag && CountersOk(counters, leaders, flags, n)
    ensures CountersOk(counters', leaders, flags, n + 1)
  {
    var leader := leaders[n];
    var count := if leader in counters then counters[leader] else 0;
    counters' := counters[leader := if flag then count + 1 else count];
    assert leaders[..n + 1] == leaders[..n] + [leader];
    if leader !in counters {
      CountOfAbsent(leaders, flags, n, leader);
    }
  }

  /** The inner loop: moves the cursor to the first confirmed block at or after the slot. */
  method AdvanceCursor(confirmed: seq<nat>, slot: nat, cursor: nat) returns (cursor': nat, skipped: bool)
    requires StrictlyIncreasing(confirmed) && cursor <= |confirmed|
    requires forall j :: 0 <= j < cursor ==> confirmed[j] < slot
    ensures cursor <= cursor' <= |confirmed| && forall j :: 0 <= j < cursor' ==> confirmed[j] < slot
    ensures skipped <==> slot !in confirmed
  {
    cursor' := cursor;
    while cursor' < |confirmed| && confirmed[cursor'] < slot
      invariant cursor <= cursor' <= |confirmed| && forall j :: 0 <= j < cursor' ==> confirmed[j] < slot
    {
      cursor' := cursor' + 1;
    }
    skipped := !(cursor' < |confirmed| && confirmed[cursor'] == slot);
  }

  ghost predicate StatusesOk(statuses: seq<SlotStatus>, startSlot: nat, leaders: seq<string>, confirmed: seq<nat>) {
    |statuses| == |leaders| &&
    forall i :: 0 <= i < |leaders| ==>
      statuses[i] == SlotStatus(startSlot + i, leaders[i], startSlot + i !in confirmed)
  }

  /** One status per slot, in order, skipped exactly when the slot is not confirmed; counters per leader. */
  method MergeStatuses(startSlot: nat, leaders: seq<string>, confirmed: seq<nat>)
    returns (statuses: seq<SlotStatus>, slotCount: Counters, skippedCount: Counters)
    requires StrictlyIncreasing(confirmed)
    ensures StatusesOk(statuses, startSlot, leaders, confirmed)
    ensures CountersOk(slotCount, leaders, AllFlags(|leaders|), |leaders|)
    ensures CountersOk(skippedCount, leaders, SkipFlags(startSlot, |leaders|, confirmed), |leaders|)
  {
    statuses, slotCount, skippedCount := [], map[], map[];
    var cursor := 0;
    for i := 0 to |leaders|
      invariant cursor <= |confirmed|
      invariant forall j :: 0 <= j < cursor ==> confirmed[j] < startSlot + i
      invariant StatusesOk(statuses, startSlot, leaders[..i], confirmed)
      invariant CountersOk(slotCount, leaders, AllFlags(|leaders|), i)
      invariant CountersOk(skippedCount, leaders, SkipFlags(startSlot, |leaders|, confirmed), i)
    {
      var leader, slot := leaders[i], startSlot + i;
      slotCount := Bump(slotCount, leaders, i, true, AllFlags(|leaders|));
      var skipped;
      cursor, skipped := AdvanceCursor(confirmed, slot, cursor);
      skippedCount := Bump(skippedCount, leaders, i, skipped, SkipFlags(startSlot, |leaders|, confirmed));
      statuses := statuses + [SlotStatus(slot, leader, skipped)];
    }
    assert leaders[..|leaders|] == leaders;
  }

  // ---------------------------------------------------------------------------
  // Totals
  // ---------------------------------------------------------------------------

  function Flagged(flags: seq<bool>, n: nat): nat
    requires n <= |flags|
  {
    if n == 0 then 0 else Flagged(flags, n - 1) + if flags[n - 1] then 1 else 0
  }

  /** The sum of the counts of the first k leaders of a list. */
  function SumOf(order: seq<string>, k: nat, leaders: seq<string>, flags: seq<bool>, n: nat): nat
    requires k <= |order| && n <= |leaders| == |flags|
  {
    if k == 0 then 0 else SumOf(order, k - 1, leaders, flags, n) + CountOf(leaders, flags, n, order[k - 1])
  }

  lemma {:induction false} SumStep(order: seq<string>, k: nat, leaders: seq<string>, flags: seq<bool>, n: nat)
    requires Distinct(order) && k <= |order| && n < |leaders| == |flags|
    ensures SumOf(order, k, leaders, flags, n + 1)
         == SumOf(order, k, leaders, flags, n) + if flags[n] && leaders[n] in order[..k] then 1 else 0
    decreases k
  {
    if k > 0 {
      SumStep(order, k - 1, leaders, flags, n);
      assert order[..k] == order[..k - 1] + [order[k - 1]];
      assert order[k - 1] !in order[..k - 1];
    }
  }

  lemma {:induction false} SumEmpty(order: seq<string>, k: nat, leaders: seq<string>, flags: seq<bool>)
    requires k <= |order| && |leaders| == |flags|
    ensures SumOf(order, k, leaders, flags, 0) == 0
    decreases k
  {
    if k > 0 {
      SumEmpty(order, k - 1, leaders, flags);
    }
  }

  /** Summed over all leaders, the counts give the number of flags set. */
  lemma {:induction false} SumTotal(order: seq<string>, leaders: seq<string>, flags: seq<bool>, n: nat)
    requires Distinct(order) && n <= |leaders| == |flags| && forall l :: l in leaders ==> l in order
    ensures SumOf(order, |order|, leaders, flags, n) == Flagged(flags, n)
    decreases n
  {
    if n == 0 {
      SumEmpty(order, |order|, leaders, flags);
    } else {
      SumTotal(order, leaders, flags, n - 1);
      SumStep(order, |order|, leaders, flags, n - 1);
      assert order[..|order|] == order && leaders[n - 1] in leaders;
    }
  }

  lemma {:induction false} AllFlagged(flags: seq<bool>, n: nat)
    requires n <= |flags| && forall i :: 0 <= i < n ==> flags[i]
    ensures Flagged(flags, n) == n
    decreases n
  {
    if n > 0 {
      AllFlagged(flags, n - 1);
    }
  }

  /** Number of confirmed blocks before a slot. */
  function Below(confirmed: seq<nat>, slot: nat): nat {
    if confirmed == [] then 0
    else Below(confirmed[..|confirmed| - 1], slot) + if confirmed[|confirmed| - 1] < slot then 1 else 0
  }

  lemma {:induction false} BelowStep(confirmed: seq<nat>, slot: nat)
    requires StrictlyIncreasing(confirmed)
    ensures Below(confirmed, slot + 1) == Below(confirmed, slot) + if slot in confirmed then 1 else 0
    decreases |confirmed|
  {
    if confirmed != [] {
      var n := |confirmed| - 1;
      BelowStep(confirmed[..n], slot);
      assert confirmed == confirmed[..n] + [confirmed[n]];
    }
  }

  lemma {:induction false} BelowBounds(confirmed: seq<nat>, slot: nat)
    ensures (forall i :: 0 <= i < |confirmed| ==> confirmed[i] >= slot) ==> Below(confirmed, slot) == 0
    ensures (forall i :: 0 <= i < |confirmed| ==> confirmed[i] < slot) ==> Below(confirmed, slot) == |confirmed|
    decreases |confirmed|
  {
    if confirmed != [] {
      BelowBounds(confirmed[..|confirmed| - 1], slot);
    }
  }

  /** Skipped slots and confirmed blocks partition the window. */
  lemma {:induction false} SkipsComplementBlocks(startSlot: nat, total: nat, n: nat, confirmed: seq<nat>)
    requires StrictlyIncreasing(confirmed) && n <= total
    ensures Flagged(SkipFlags(startSlot, total, confirmed), n) + Below(confirmed, startSlot + n)
         == n + Below(confirmed, startSlot)
    decreases n
  {
    if n > 0 {
      SkipsComplementBlocks(startSlot, total, n - 1, confirmed);
      BelowStep(confirmed, startSlot + n - 1);
    }
  }

  lemma {:induction false} SkipsWithinSlots(leaders: seq<string>, flags: seq<bool>, n: nat, leader: string)
    requires n <= |leaders| == |flags|
    ensures CountOf(leaders, flags, n, leader) <= CountOf(leaders, AllFlags(|leaders|), n, leader)
    decreases n
  {
    if n > 0 {
      SkipsWithinSlots(leaders, flags, n - 1, leader);
    }
  }

  // ---------------------------------------------------------------------------
  // The report
  // ---------------------------------------------------------------------------

  datatype Entry = Entry(leader: string, leaderSlots: nat, blocksProduced: nat, skippedSlots: nat)

  function SumSlots(entries: seq<Entry>): nat {
    if entries == [] then 0 else SumSlots(entries[..|entries| - 1]) + entries[|entries| - 1].leaderSlots
  }

  function SumSkipped(entries: seq<Entry>): nat {
    if entries == [] then 0 else SumSkipped(entries[..|entries| - 1]) + entries[|entries| - 1].skippedSlots
  }

  function SumBlocks(entries: seq<Entry>): nat {
    if entries == [] then 0 else SumBlocks(entries[..|entries| - 1]) + entries[|entries| - 1].blocksProduced
  }

  /** An entry counts the places of its leader, and those of them that are flagged as skipped. */
  ghost predicate EntryCounts(entry: Entry, leader: string, leaders: seq<string>, flags: seq<bool>)
    requires |flags| == |leaders|
  {
    && entry.leader == leader
    && entry.leaderSlots == CountOf(leaders, AllFlags(|leaders|), |leaders|, leader)
    && entry.skippedSlots == CountOf(leaders, flags, |leaders|, leader)
    && entry.blocksProduced + entry.skippedSlots == entry.leaderSlots
  }

  /** One entry for each leader. */
  ghost predicate EntriesOk(entries: seq<Entry>, order: seq<string>, leaders: seq<string>, flags: seq<bool>)
    requires |flags| == |leaders|
  {
    && Distinct(order) && (forall l :: l in order <==> l in leaders)
    && |entries| == |order| && forall i :: 0 <= i < |entries| ==> EntryCounts(entries[i], order[i], leaders, flags)
  }

  method MakeEntry(
    leader: string, slotCount: Counters, skippedCount: Counters, ghost leaders: seq<string>, ghost flags: seq<bool>)
    returns (entry: Entry)
    requires |flags| == |leaders| && leader in slotCount
    requires CountersOk(slotCount, leaders, AllFlags(|leaders|), |leaders|)
    requires CountersOk(skippedCount, leaders, flags, |leaders|)
    ensures EntryCounts(entry, leader, leaders, flags)
  {
    SkipsWithinSlots(leaders, flags, |leaders|, leader);
    var slots, skipped := slotCount[leader], skippedCount[leader];
    entry := Entry(leader, slots, slots - skipped, skipped);
  }

  method LeaderEntries(
    slotCount: Counters, skippedCount: Counters, ghost leaders: seq<string>, ghost flags: seq<bool>)
    returns (entries: seq<Entry>, ghost order: seq<string>)
    requires |flags| == |leaders|
    requires CountersOk(slotCount, leaders, AllFlags(|leaders|), |leaders|)
    requires CountersOk(skippedCount, leaders, flags, |leaders|)
    ensures EntriesOk(entries, order, leaders, flags)
  {
    assert leaders[..|leaders|] == leaders;
    var keys := SomeOrder(slotCount.Keys);
    order := keys;
    entries := [];
    for i := 0 to |keys|
      invariant |entries| == i
      invariant forall t :: 0 <= t < i ==> EntryCounts(entries[t], keys[t], leaders, flags)
    {
      assert keys[i] in keys;
      var entry := MakeEntry(keys[i], slotCount, skippedCount, leaders, flags);
      entries := entries + [entry];
    }
  }

  /** The entries add up to the sums over the counters. */
  lemma {:induction false} EntrySums(
    entries: seq<Entry>, order: seq<string>, leaders: seq<string>, flags: seq<bool>, k: nat)
    requires |flags| == |leaders| && EntriesOk(entries, order, leaders, flags) && k <= |entries|
    ensures SumSlots(entries[..k]) == SumOf(order, k, leaders, AllFlags(|leaders|), |leaders|)
    ensures SumSkipped(entries[..k]) == SumOf(order, k, leaders, flags, |leaders|)
    ensures SumBlocks(entries[..k]) + SumSkipped(entries[..k]) == SumSlots(entries[..k])
    decreases k
  {
    if k > 0 {
      EntrySums(entries, order, leaders, flags, k - 1);
      assert entries[..k][..k - 1] == entries[..k - 1];
      assert EntryCounts(entries[k - 1], order[k - 1], leaders, flags);
    }
  }

  datatype Report = Report(
    totalSlots: nat, totalBlocksProduced: nat, totalSlotsSkipped: nat, leaders: seq<Entry>, statuses: seq<SlotStatus>)

  /** There is room for every confirmed block: k of them need k slots. */
  lemma {:induction false} BlocksFit(confirmed: seq<nat>, startSlot: nat, n: nat)
    requires StrictlyIncreasing(confirmed) && n < |confirmed| && confirmed[0] >= startSlot
    ensures confirmed[n] >= startSlot + n
    decreases n
  {
    if n > 0 {
      BlocksFit(confirmed, startSlot, n - 1);
    }
  }

  function StatusLeaders(statuses: seq<SlotStatus>): seq<string> {
    seq(|statuses|, i requires 0 <= i < |statuses| => statuses[i].leader)
  }

  function StatusSkips(statuses: seq<SlotStatus>): seq<bool> {
    seq(|statuses|, i requires 0 <= i < |statuses| => statuses[i].skipped)
  }

  /** An entry counts the slots of its leader, and those of them that were skipped. */
  ghost predicate EntryOk(entry: Entry, statuses: seq<SlotStatus>) {
    && entry.leaderSlots == |set i | 0 <= i < |statuses| && statuses[i].leader == entry.leader|
    && entry.skippedSlots
       == |set i | 0 <= i < |statuses| && statuses[i].leader == entry.leader && statuses[i].skipped|
    && entry.blocksProduced == entry.leaderSlots - entry.skippedSlots
  }

  lemma CountsAreSizes(statuses: seq<SlotStatus>, leader: string)
    ensures var leaders, n := StatusLeaders(statuses), |statuses|;
      && CountOf(leaders, AllFlags(n), n, leader)
         == |set i | 0 <= i < |statuses| && statuses[i].leader == leader|
      && CountOf(leaders, StatusSkips(statuses), n, leader)
         == |set i | 0 <= i < |statuses| && statuses[i].leader == leader && statuses[i].skipped|
  {
    var leaders, n := StatusLeaders(statuses), |statuses|;
    CountIsSize(leaders, AllFlags(n), n, leader);
    CountIsSize(leaders, StatusSkips(statuses), n, leader);
    assert Counted(leaders, AllFlags(n), n, leader)
      == (set i | 0 <= i < |statuses| && statuses[i].leader == leader);
    assert Counted(leaders, StatusSkips(statuses), n, leader)
      == (set i | 0 <= i < |statuses| && statuses[i].leader == leader && statuses[i].skipped);
  }

  /** Over any list of all leaders: slots sum to the window, skips to what the blocks leave of it. */
  lemma Totals(order: seq<string>, leaders: seq<string>, startSlot: nat, total: nat, confirmed: seq<nat>)
    requires Distinct(order) && |leaders| == total && forall l :: l in leaders ==> l in order
    requires StrictlyIncreasing(confirmed)
    requires forall i :: 0 <= i < |confirmed| ==> startSlot <= confirmed[i] < startSlot + total
    ensures SumOf(order, |order|, leaders, AllFlags(total), total) == total
    ensures SumOf(order, |order|, leaders, SkipFlags(startSlot, total, confirmed), total) + |confirmed| == total
  {
    SumTotal(order, leaders, AllFlags(total), total);
    AllFlagged(AllFlags(total), total);
    SumTotal(order, leaders, SkipFlags(startSlot, total, confirmed), total);
    SkipsComplementBlocks(startSlot, total, total, confirmed);
    BelowBounds(confirmed, startSlot);
    BelowBounds(confirmed, startSlot + total);
  }

  method ShowBlockProduction(window: Window, schedule: seq<(string, seq<nat>)>, confirmed: seq<nat>)
    returns (report: Report)
    requires window.startIndex <= window.endIndex && window.totalSlots == window.endIndex - window.startIndex + 1
    requires StrictlyIncreasing(confirmed)
    requires forall i :: 0 <= i < |confirmed| ==> window.startSlot <= confirmed[i] < window.startSlot + window.totalSlots
    ensures report.totalSlots == window.totalSlots && report.totalBlocksProduced == |confirmed|
    ensures report.totalSlots == report.totalBlocksProduced + report.totalSlotsSkipped
    ensures SumSlots(report.leaders) == report.totalSlots
    ensures SumSkipped(report.leaders) == report.totalSlotsSkipped
    ensures SumBlocks(report.leaders) == report.totalBlocksProduced
    ensures |report.statuses| == window.totalSlots
    ensures forall i :: 0 <= i < |report.statuses| ==>
      && report.statuses[i].slot == window.startSlot + i
      && (report.statuses[i].skipped <==> window.startSlot + i !in confirmed)
    ensures LeadersOk(schedule, window.startIndex, StatusLeaders(report.statuses))
    ensures forall i :: 0 <= i < |report.leaders| ==> EntryOk(report.leaders[i], report.statuses)
    ensures NamesEachOnce(report.leaders, StatusLeaders(report.statuses))
  {
    var total := window.totalSlots;
    if confirmed != [] {
      BlocksFit(confirmed, window.startSlot, |confirmed| - 1);
    }
    assert |confirmed| <= total;
    var skippedTotal := total - |confirmed|;
    var leaders := FillLeaders(schedule, window.startIndex, window.endIndex);
    var statuses, slotCount, skippedCount := MergeStatuses(window.startSlot, leaders, confirmed);
    ghost var flags := SkipFlags(window.startSlot, total, confirmed);
    var entries, order := LeaderEntries(slotCount, skippedCount, leaders, flags);
    report := Report(total, |confirmed|, skippedTotal, entries, statuses);
    EntryTotals(entries, order, leaders, window.startSlot, confirmed);
    EntriesMatch(statuses, window.startSlot, leaders, confirmed, entries, order);
  }

  /** Over all entries: slots sum to the window, skips to what the blocks leave of it, blocks to the blocks. */
  lemma EntryTotals(
    entries: seq<Entry>, order: seq<string>, leaders: seq<string>, startSlot: nat, confirmed: seq<nat>)
    requires EntriesOk(entries, order, leaders, SkipFlags(startSlot, |leaders|, confirmed))
    requires StrictlyIncreasing(confirmed)
    requires forall i :: 0 <= i < |confirmed| ==> startSlot <= confirmed[i] < startSlot + |leaders|
    ensures SumSlots(entries) == |leaders| && SumBlocks(entries) == |confirmed|
    ensures SumSkipped(entries) == |leaders| - |confirmed|
  {
    Totals(order, leaders, startSlot, |leaders|, confirmed);
    EntrySums(entries, order, leaders, SkipFlags(startSlot, |leaders|, confirmed), |entries|);
    assert entries[..|entries|] == entries;
  }

  /** Every leader of a slot has exactly one entry, and nobody else has one. */
  ghost predicate NamesEachOnce(entries: seq<Entry>, leaders: seq<string>) {
    && (forall i, j :: 0 <= i < j < |entries| ==> entries[i].leader != entries[j].leader)
    && (forall l :: l in leaders <==> exists i :: 0 <= i < |entries| && entries[i].leader == l)
  }

  lemma NamesOfEntries(entries: seq<Entry>, order: seq<string>, leaders: seq<string>, flags: seq<bool>)
    requires |flags| == |leaders| && EntriesOk(entries, order, leaders, flags)
    ensures NamesEachOnce(entries, leaders)
  {
    forall i | 0 <= i < |entries| ensures entries[i].leader == order[i] {
      assert EntryCounts(entries[i], order[i], leaders, flags);
    }
    forall l | l in leaders ensures exists i :: 0 <= i < |entries| && entries[i].leader == l {
      assert l in order;
      var i :| 0 <= i < |order| && order[i] == l;
      assert entries[i].leader == l;
    }
    forall i | 0 <= i < |entries| ensures entries[i].leader in leaders {
      assert order[i] in order;
    }
  }

  /** The entries count what the statuses show. */
  lemma EntriesMatch(
    statuses: seq<SlotStatus>, startSlot: nat, leaders: seq<string>, confirmed: seq<nat>,
    entries: seq<Entry>, order: seq<string>)
    requires StatusesOk(statuses, startSlot, leaders, confirmed)
    requires EntriesOk(entries, order, leaders, SkipFlags(startSlot, |leaders|, confirmed))
    ensures StatusLeaders(statuses) == leaders && NamesEachOnce(entries, leaders)
    ensures forall i :: 0 <= i < |entries| ==> EntryOk(entries[i], statuses)
  {
    NamesOfEntries(entries, order, leaders, SkipFlags(startSlot, |leaders|, confirmed));
    assert StatusLeaders(statuses) == leaders;
    assert StatusSkips(statuses) == SkipFlags(startSlot, |leaders|, confirmed);
    forall i | 0 <= i < |entries| ensures EntryOk(entries[i], statuses) {
      assert EntryCounts(entries[i], order[i], leaders, SkipFlags(startSlot, |leaders|, confirmed));
      CountsAreSizes(statuses, order[i]);
    }
  }
}
