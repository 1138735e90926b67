/**
 Chunked writes and resumable buffer initialisation of program deployment (`cli/src/program.rs`),
 with the effects that the loader and the system program give to the instructions
 (`programs/bpf_loader/src/lib.rs`, `runtime/src/system_instruction_processor.rs`).
 */
module ProgramDeploy {
  import opened Collections
  import opened Wrappers
  import Confirmation = ConfirmationLoop

  const DATA_CHUNK_SIZE: nat := 229
  const U32_MODULUS: nat := 0x1_0000_0000

  type Byte = b: int | 0 <= b < 256

  // ---------------------------------------------------------------------------
  // Writing the program
  // ---------------------------------------------------------------------------

  /** A loader write; the offset is relative to the start of the program in the buffer. */
  datatype Write = Write(offset: nat, bytes: seq<Byte>)

  datatype WriteError = AccountDataTooSmall

  /** `write_program_data` of the loader. */
  function WriteProgramData(data: seq<Byte>, offset: nat, bytes: seq<Byte>): Result<seq<Byte>, WriteError> {
    if |data| < offset + |bytes| then Err(AccountDataTooSmall)
    else Ok(data[..offset] + bytes + data[offset + |bytes|..])
  }

  /** A transaction with one write: it takes effect, or fails and changes nothing. */
  function Land(data: seq<Byte>, base: nat, write: Write): seq<Byte> {
    match WriteProgramData(data, base + write.offset, write.bytes)
    case Ok(after) => after
    case Err(_) => data
  }

  function LandAll(data: seq<Byte>, base: nat, writes: seq<Write>): seq<Byte> {
    if writes == [] then data
    else Land(LandAll(data, base, writes[..|writes| - 1]), base, writes[|writes| - 1])
  }

  function ChunkCount(length: nat): nat {
    (length + DATA_CHUNK_SIZE - 1) / DATA_CHUNK_SIZE
  }

  function ChunkEnd(length: nat, i: nat): nat {
    if (i + 1) * DATA_CHUNK_SIZE < length then (i + 1) * DATA_CHUNK_SIZE else length
  }

  /** Write i carries chunk i of the program; its offset is cast to 32 bits. */
  ghost predicate WritesUpTo(program: seq<Byte>, writes: seq<Write>) {
    forall i :: 0 <= i < |writes| ==>
      && i * DATA_CHUNK_SIZE < |program|
      && writes[i].offset == i * DATA_CHUNK_SIZE % 0x1_0000_0000
      && writes[i].bytes == program[i * DATA_CHUNK_SIZE..ChunkEnd(|program|, i)]
  }

  ghost predicate IsWriteList(program: seq<Byte>, writes: seq<Write>) {
    |writes| == ChunkCount(|program|) && WritesUpTo(program, writes)
  }

  /** The loop that builds the write messages. */
  method BuildWrites(program: seq<Byte>) returns (writes: seq<Write>)
    ensures IsWriteList(program, writes)
    ensures forall i :: 0 <= i < |writes| ==>
      0 < |writes[i].bytes| <= 229 && (i + 1 < |writes| ==> |writes[i].bytes| == 229)
  {
    writes := [];
    var start := 0;
    while start < |program|
      invariant start == if |writes| * DATA_CHUNK_SIZE < |program| then |writes| * DATA_CHUNK_SIZE else |program|
      invariant |writes| <= ChunkCount(|program|) && WritesUpTo(program, writes)
    {
      var end := ChunkEnd(|program|, |writes|);
      writes := writes + [Write(start % U32_MODULUS, program[start..end])];
      start := end;
    }
  }

  /** A write that stores a part of the program where it belongs. */
  ghost predicate Faithful(program: seq<Byte>, write: Write) {
    && write.offset + |write.bytes| <= |program|
    && write.bytes == program[write.offset..write.offset + |write.bytes|]
  }

  ghost predicate Covers(write: Write, q: nat) {
    write.offset <= q < write.offset + |write.bytes|
  }

  ghost predicate Covered(writes: seq<Write>, q: nat) {
    exists i :: 0 <= i < |writes| && Covers(writes[i], q)
  }

  lemma WritesAreFaithful(program: seq<Byte>, writes: seq<Write>, i: nat)
    requires |program| <= U32_MODULUS && IsWriteList(program, writes) && i < |writes|
    ensures Faithful(program, writes[i]) && writes[i].offset == i * DATA_CHUNK_SIZE
  {
    SmallRemainder(i * DATA_CHUNK_SIZE);
  }

  lemma SmallRemainder(x: nat)
    requires x < U32_MODULUS
    ensures x % U32_MODULUS == x
  {
  }

  /** Every position of the program lies in one of the writes. */
  lemma WritesCover(program: seq<Byte>, writes: seq<Write>, q: nat)
    requires |program| <= U32_MODULUS && IsWriteList(program, writes) && q < |program|
    ensures Covered(writes, q)
  {
    var i := q / DATA_CHUNK_SIZE;
    ChunkOf(|program|, q);
    WritesAreFaithful(program, writes, i);
    assert Covers(writes[i], q);
  }

  lemma ChunkOf(length: nat, q: nat)
    requires q < length
    ensures q / DATA_CHUNK_SIZE < ChunkCount(length)
    ensures q / DATA_CHUNK_SIZE * DATA_CHUNK_SIZE <= q < ChunkEnd(length, q / DATA_CHUNK_SIZE)
  {
  }

  lemma LandAt(program: seq<Byte>, data: seq<Byte>, base: nat, write: Write, q: nat)
    requires base + |program| <= |data| && q < |data| && Faithful(program, write)
    ensures |Land(data, base, write)| == |data|
    ensures Land(data, base, write)[q] == if q >= base && Covers(write, q - base) then program[q - base] else data[q]
  {
  }

  ghost predicate AllFaithful(program: seq<Byte>, landed: seq<Write>) {
    forall i :: 0 <= i < |landed| ==> Faithful(program, landed[i])
  }

  /** After any faithful writes, a position holds its program byte if it was covered and its old one if not. */
  lemma {:induction false} LandAllAt(program: seq<Byte>, data: seq<Byte>, base: nat, landed: seq<Write>, q: nat)
    requires base + |program| <= |data| && q < |data| && AllFaithful(program, landed)
    ensures |LandAll(data, base, landed)| == |data|
    ensures q >= base && Covered(landed, q - base) ==> q - base < |program|
    ensures LandAll(data, base, landed)[q]
         == if q >= base && Covered(landed, q - base) then program[q - base] else data[q]
    decreases |landed|
  {
    if landed != [] {
      var n := |landed| - 1;
      var before, last := landed[..n], landed[n];
      LandAllAt(program, data, base, before, q);
      LandAt(program, LandAll(data, base, before), base, last, q);
      if q >= base {
        CoveredSnoc(before, last, q - base);
        assert landed == before + [last];
      }
    }
  }

  lemma CoveredSnoc(writes: seq<Write>, last: Write, q: nat)
    ensures Covered(writes + [last], q) <==> Covered(writes, q) || Covers(last, q)
  {
    var longer := writes + [last];
    assert forall i :: 0 <= i < |writes| ==> longer[i] == writes[i];
    assert longer[|writes|] == last;
  }

  /**
   In any order and with any repetition, the generated writes turn a long enough buffer into one
   that holds the program at `base` and is otherwise untouched.
   */
  lemma AnyOrderWritesProgram(
    program: seq<Byte>, writes: seq<Write>, data: seq<Byte>, base: nat, landed: seq<Write>)
    requires |program| <= U32_MODULUS && IsWriteList(program, writes)
    requires base + |program| <= |data|
    requires forall w :: w in landed <==> w in writes
    ensures LandAll(data, base, landed) == data[..base] + program + data[base + |program|..]
  {
    LandedFaithful(program, writes, landed);
    if |data| > 0 {
      LandAllAt(program, data, base, landed, 0);
    } else {
      EmptyBuffer(base, landed, program);
    }
    forall q | 0 <= q < |data|
      ensures LandAll(data, base, landed)[q] == if base <= q < base + |program| then program[q - base] else data[q]
    {
      LandedAt(program, writes, data, base, landed, q);
    }
    Spliced(program, data, base, LandAll(data, base, landed));
  }

  lemma Spliced(program: seq<Byte>, data: seq<Byte>, base: nat, result: seq<Byte>)
    requires base + |program| <= |data| == |result|
    requires forall q :: 0 <= q < |data| ==>
      result[q] == if base <= q < base + |program| then program[q - base] else data[q]
    ensures result == data[..base] + program + data[base + |program|..]
  {
  }

  lemma LandedFaithful(program: seq<Byte>, writes: seq<Write>, landed: seq<Write>)
    requires |program| <= U32_MODULUS && IsWriteList(program, writes)
    requires forall w :: w in landed <==> w in writes
    ensures AllFaithful(program, landed)
  {
    forall i | 0 <= i < |landed| ensures Faithful(program, landed[i]) {
      assert landed[i] in landed;
      var j :| 0 <= j < |writes| && writes[j] == landed[i];
      WritesAreFaithful(program, writes, j);
    }
  }

  lemma LandedAt(
    program: seq<Byte>, writes: seq<Write>, data: seq<Byte>, base: nat, landed: seq<Write>, q: nat)
    requires |program| <= U32_MODULUS && IsWriteList(program, writes) && AllFaithful(program, landed)
    requires base + |program| <= |data| && q < |data|
    requires forall w :: w in landed <==> w in writes
    ensures |LandAll(data, base, landed)| == |data|
    ensures LandAll(data, base, landed)[q] == if base <= q < base + |program| then program[q - base] else data[q]
  {
    LandAllAt(program, data, base, landed, q);
    if base <= q < base + |program| {
      WritesCover(program, writes, q - base);
      SameWritesCover(writes, landed, q - base);
    }
  }

  lemma {:induction false} EmptyBuffer(base: nat, landed: seq<Write>, program: seq<Byte>)
    requires AllFaithful(program, landed)
    requires base == 0 && program == []
    ensures LandAll([], base, landed) == []
    decreases |landed|
  {
    if landed != [] {
      EmptyBuffer(base, landed[..|landed| - 1], program);
    }
  }

  lemma SameWritesCover(writes: seq<Write>, landed: seq<Write>, q: nat)
    requires forall w :: w in writes ==> w in landed
    requires Covered(writes, q)
    ensures Covered(landed, q)
  {
    var i :| 0 <= i < |writes| && Covers(writes[i], q);
    assert writes[i] in landed;
  }

  /** The write messages, by number, that were executed, with repetitions and in whatever order. */
  function Executed(writes: seq<Write>, executed: seq<nat>): seq<Write>
    requires forall i :: 0 <= i < |executed| ==> executed[i] < |writes|
  {
    seq(|executed|, i requires 0 <= i < |executed| => writes[executed[i]])
  }

  /** Only write messages were executed, and each one that an answer reported confirmed was. */
  ghost predicate ExecutedAsReported(
    log: seq<Confirmation.Event>, count: nat, executed: seq<Confirmation.Message>)
  {
    && (forall i :: 0 <= i < |executed| ==> executed[i] < count)
    && forall i: nat, k: nat, m :: Confirmation.ReportsAt(log, i, k, m) ==> m in executed
  }

  /** If every write message counts as confirmed, and confirmed ones were executed, the program is in the buffer. */
  lemma ConfirmedDeployWritesProgram(
    program: seq<Byte>, writes: seq<Write>, data: seq<Byte>, base: nat,
    log: seq<Confirmation.Event>, first: Confirmation.Signing, executed: seq<Confirmation.Message>)
    requires |program| <= U32_MODULUS && IsWriteList(program, writes) && base + |program| <= |data|
    requires forall m :: 0 <= m < |writes| ==> m in Confirmation.State(log, first).confirmed
    requires ExecutedAsReported(log, |writes|, executed)
    ensures LandAll(data, base, Executed(writes, executed)) == data[..base] + program + data[base + |program|..]
  {
    var landed := Executed(writes, executed);
    forall w | w in writes ensures w in landed {
      var m :| 0 <= m < |writes| && writes[m] == w;
      Confirmation.ConfirmedIff(log, first, m);
      assert m in executed;
      var i :| 0 <= i < |executed| && executed[i] == m;
      assert landed[i] == w;
    }
    AnyOrderWritesProgram(program, writes, data, base, landed);
  }

  /**
   End to end: signs one message per write and hands them to the confirmation loop. If that succeeds,
   then wherever reported messages were executed, the buffer holds the program and is otherwise untouched.
   */
  method WriteProgram(program: seq<Byte>, signing: Confirmation.Signing, script: seq<Confirmation.Answer>)
    returns (writes: seq<Write>, outcome: Confirmation.Outcome, ghost log: seq<Confirmation.Event>)
    requires |program| <= U32_MODULUS
    ensures IsWriteList(program, writes)
    ensures Confirmation.State(log, signing).permitted && Confirmation.State(log, signing).answers <= script
    ensures outcome.Succeeded? ==> forall data, base: nat, executed |
      base + |program| <= |data| && ExecutedAsReported(log, |writes|, executed) ::
      LandAll(data, base, Executed(writes, executed)) == data[..base] + program + data[base + |program|..]
  {
    writes := BuildWrites(program);
    var signed := seq(|writes|, i requires 0 <= i => Confirmation.Transaction(i, signing.blockhash));
    outcome, log := Confirmation.SendAndConfirm(signed, signing, script);
    if outcome.Succeeded? {
      forall m | 0 <= m < |writes| ensures m in Confirmation.State(log, signing).confirmed {
        assert signed[m] in signed;
      }
      forall data, base: nat, executed | base + |program| <= |data| && ExecutedAsReported(log, |writes|, executed)
        ensures LandAll(data, base, Executed(writes, executed)) == data[..base] + program + data[base + |program|..]
      {
        ConfirmedDeployWritesProgram(program, writes, data, base, log, signing, executed);
      }
    }
  }

  // ---------------------------------------------------------------------------
  // Resumable initialisation of the buffer account
  // ---------------------------------------------------------------------------

  type Pubkey = nat

  const SYSTEM_PROGRAM: Pubkey := 0
  const MAX_PERMITTED_DATA_LENGTH: nat := 10 * 1024 * 1024

  datatype Account = Account(lamports: nat, owner: Pubkey, dataLen: nat, executable: bool)

  datatype Instruction = Allocate(space: nat) | Assign(owner: Pubkey) | Transfer(lamports: nat)

  datatype InitError = AlreadyExecutable | OwnedByAnother | HasBalance(lamports: nat)

  function CompletePartialProgramInit(
    loaderId: Pubkey, account: Account, dataLen: nat, minimumBalance: nat, allowExcessive: bool)
    : Result<(seq<Instruction>, nat), InitError>
  {
    if account.executable then Err(AlreadyExecutable)
    else if account.owner != loaderId && account.owner != SYSTEM_PROGRAM then Err(OwnedByAnother)
    else
      var setup :=
        if account.dataLen == 0 && account.owner == SYSTEM_PROGRAM then
          [Allocate(dataLen)] + if account.owner != loaderId then [Assign(loaderId)] else []
        else [];
      if account.lamports < minimumBalance then
        var balance := minimumBalance - account.lamports;
        Ok((setup + [Transfer(balance)], balance))
      else if account.lamports > minimumBalance && account.owner == SYSTEM_PROGRAM && !allowExcessive then
        Err(HasBalance(account.lamports))
      else Ok((setup, 0))
  }

  /** Which refusal comes first: executable, then a foreign owner, then an unexpected balance. */
  lemma InitRefusedIff(
    loaderId: Pubkey, account: Account, dataLen: nat, minimumBalance: nat, allowExcessive: bool)
    ensures var r := CompletePartialProgramInit(loaderId, account, dataLen, minimumBalance, allowExcessive);
            var foreign := account.owner != loaderId && account.owner != SYSTEM_PROGRAM;
            var excess := account.owner == SYSTEM_PROGRAM && account.lamports > minimumBalance && !allowExcessive;
            && (r.Ok? <==> !account.executable && !foreign && !excess)
            && (r == Err(AlreadyExecutable) <==> account.executable)
            && (r == Err(OwnedByAnother) <==> !account.executable && foreign)
            && (r == Err(HasBalance(account.lamports)) <==> !account.executable && !foreign && excess)
            && (r.Ok? ==> r.value.1 == if account.lamports < minimumBalance then minimumBalance - account.lamports else 0)
  {
  }

  /** One instruction of the system program on the buffer account, paid for by a payer. */
  function Execute(instruction: Instruction, account: Account, payer: nat): Option<(Account, nat)> {
    match instruction
    case Allocate(space) =>
      if account.dataLen != 0 || account.owner != SYSTEM_PROGRAM || space > MAX_PERMITTED_DATA_LENGTH then None
      else Some((account.(dataLen := space), payer))
    case Assign(owner) =>
      if account.owner == owner then Some((account, payer))
      else if account.owner != SYSTEM_PROGRAM then None
      else Some((account.(owner := owner), payer))
    case Transfer(lamports) =>
      if payer < lamports then None
      else Some((account.(lamports := account.lamports + lamports), payer - lamports))
  }

  /** All instructions of the initial message, or none. */
  function ExecuteAll(instructions: seq<Instruction>, account: Account, payer: nat): Option<(Account, nat)>
    decreases |instructions|
  {
    if instructions == [] then Some((account, payer))
    else match Execute(instructions[0], account, payer)
      case None => None
      case Some((account', payer')) => ExecuteAll(instructions[1..], account', payer')
  }

  ghost predicate Untouched(account: Account) {
    account.dataLen == 0 && account.owner == SYSTEM_PROGRAM
  }

  /** The account that a successful initial message leaves. */
  function Initialised(loaderId: Pubkey, account: Account, dataLen: nat, minimumBalance: nat): Account {
    if account.dataLen == 0 && account.owner == SYSTEM_PROGRAM
    then Account(Max(account.lamports, minimumBalance), loaderId, dataLen, account.executable)
    else account.(lamports := Max(account.lamports, minimumBalance))
  }

  /** The message goes through exactly when the payer can afford it and the size is permitted. */
  lemma InitExecutes(
    loaderId: Pubkey, account: Account, dataLen: nat, minimumBalance: nat, allowExcessive: bool, payer: nat)
    requires CompletePartialProgramInit(loaderId, account, dataLen, minimumBalance, allowExcessive).Ok?
    ensures var (instructions, needed) :=
              CompletePartialProgramInit(loaderId, account, dataLen, minimumBalance, allowExcessive).value;
            ExecuteAll(instructions, account, payer)
            == if payer < needed || (Untouched(account) && dataLen > MAX_PERMITTED_DATA_LENGTH) then None
               else Some((Initialised(loaderId, account, dataLen, minimumBalance), payer - needed))
  {
    var (instructions, needed) :=
      CompletePartialProgramInit(loaderId, account, dataLen, minimumBalance, allowExcessive).value;
    var last := if account.lamports < minimumBalance then [Transfer(needed)] else [];
    if Untouched(account) {
      var sized := account.(dataLen := dataLen);
      LastTransfer(last, needed, sized, payer);
      LastTransfer(last, needed, sized.(owner := loaderId), payer);
      if loaderId == SYSTEM_PROGRAM {
        assert instructions == [Allocate(dataLen)] + last && instructions[1..] == last;
      } else {
        var assigning := [Assign(loaderId)] + last;
        assert instructions == [Allocate(dataLen)] + assigning && instructions[1..] == assigning;
        assert assigning[1..] == last;
        assert ExecuteAll(assigning, sized, payer) == ExecuteAll(last, sized.(owner := loaderId), payer);
      }
    } else {
      assert instructions == last;
      LastTransfer(last, needed, account, payer);
    }
  }

  lemma LastTransfer(last: seq<Instruction>, needed: nat, account: Account, payer: nat)
    requires last == (if needed > 0 then [Transfer(needed)] else [])
    ensures ExecuteAll(last, account, payer)
         == if payer < needed then None else Some((account.(lamports := account.lamports + needed), payer - needed))
  {
    if needed > 0 {
      assert last[1..] == [];
    }
  }

  /** What the initial message leaves of the account, if it goes through. */
  ghost predicate Leaves(
    loaderId: Pubkey, account: Account, dataLen: nat, minimumBalance: nat, allowExcessive: bool, payer: nat,
    after: Account)
  {
    var init := CompletePartialProgramInit(loaderId, account, dataLen, minimumBalance, allowExcessive);
    init.Ok? && exists rest :: ExecuteAll(init.value.0, account, payer) == Some((after, rest))
  }

  /** Doing it again asks for nothing, except in the one case where allocating changed nothing. */
  lemma InitResumes(
    loaderId: Pubkey, account: Account, dataLen: nat, minimumBalance: nat, allowExcessive: bool, payer: nat,
    after: Account)
    requires Leaves(loaderId, account, dataLen, minimumBalance, allowExcessive, payer, after)
    ensures CompletePartialProgramInit(loaderId, after, dataLen, minimumBalance, allowExcessive) == Ok(([], 0))
       <==> !(Untouched(account) && loaderId == SYSTEM_PROGRAM && dataLen == 0)
  {
    InitExecutes(loaderId, account, dataLen, minimumBalance, allowExcessive, payer);
  }

  /**
   The message leaves a buffer of the right owner and size exactly when the account was untouched or
   already right: an account with data is taken as it is, whatever its size and owner.
   */
  lemma InitReadyIff(
    loaderId: Pubkey, account: Account, dataLen: nat, minimumBalance: nat, allowExcessive: bool, payer: nat,
    after: Account)
    requires Leaves(loaderId, account, dataLen, minimumBalance, allowExcessive, payer, after)
    ensures after.owner == loaderId && after.dataLen == dataLen
       <==> Untouched(account) || (account.owner == loaderId && account.dataLen == dataLen)
  {
    InitExecutes(loaderId, account, dataLen, minimumBalance, allowExcessive, payer);
  }

  /** Ten bytes stay ten bytes, although twenty were asked for. */
  lemma InitKeepsWrongSize(payer: nat)
    requires payer >= 5
    ensures var account := Account(0, 1, 10, false);
            Leaves(1, account, 20, 5, false, payer, account.(lamports := 5))
  {
    var account := Account(0, 1, 10, false);
    InitExecutes(1, account, 20, 5, false, payer);
    assert ExecuteAll(CompletePartialProgramInit(1, account, 20, 5, false).value.0, account, payer)
        == Some((account.(lamports := 5), payer - 5));
  }
}
