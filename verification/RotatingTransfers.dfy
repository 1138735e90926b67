/**
 The transfer generator of the throughput bench (`generate_chunked_transfers`, `generate_txs` and
 `generate_system_txs` in `bench-tps/src/bench.rs`).

 Accounts are identified by their place in the chunks that `do_bench_tps` cuts; the keys are all
 different. Every transaction moves one lamport, pays no fee and lands before the next round. The
 number of rounds, which the clock decides, is a parameter.
 */
module RotatingTransfers {

  datatype Account = Source(chunk: nat, index: nat) | Dest(chunk: nat, index: nat)

  type Ledger = map<Account, nat>
  type Transfer = (Account, Account)

  function Balance(ledger: Ledger, k: Account): nat {
    if k in ledger then ledger[k] else 0
  }

  // ---------------------------------------------------------------------------
  // Rotation
  // ---------------------------------------------------------------------------

  function RotateLeft<T>(s: seq<T>): seq<T>
    requires s != []
  {
    s[1..] + s[..1]
  }

  /** How far a deque of `size` entries is rotated after v visits. */
  function Offset(v: nat, size: nat): (o: nat)
    requires size > 0
    ensures o < size
  {
    if v == 0 then 0
    else
      var o := Offset(v - 1, size);
      if o + 1 == size then 0 else o + 1
  }

  function Wrap(i: nat, o: nat, size: nat): (j: nat)
    requires i < size && o < size
    ensures j < size
  {
    if i + o < size then i + o else i + o - size
  }

  function Unwrap(j: nat, o: nat, size: nat): (i: nat)
    requires j < size && o < size
    ensures i < size && Wrap(i, o, size) == j
  {
    if j >= o then j - o else j + size - o
  }

  /** The destination deque of a chunk after v visits. */
  function Rotated(chunk: nat, v: nat, size: nat): seq<Account>
    requires size > 0
  {
    seq(size, i requires 0 <= i < size => Dest(chunk, Wrap(i, Offset(v, size), size)))
  }

  lemma RotateOnce(chunk: nat, v: nat, size: nat)
    requires size > 0
    ensures RotateLeft(Rotated(chunk, v, size)) == Rotated(chunk, v + 1, size)
  {
  }

  lemma DivModUnique(x: nat, q: nat, o: nat, d: nat)
    requires d > 0 && o < d && x == q * d + o
    ensures x / d == q && x % d == o
  {
    var e, bound: int := x / d - q, d;
    assert e * d == (x / d) * d - q * d;
    SmallMultiple(e, bound);
  }

  lemma SmallMultiple(e: int, d: int)
    requires d > 0 && -d < e * d < d
    ensures e == 0
  {
  }

  lemma NonnegativeFactor(e: int, d: int)
    requires d > 0 && e * d >= 0
    ensures e >= 0
  {
  }

  lemma {:induction false} OffsetIsRemainder(v: nat, size: nat)
    requires size > 0
    ensures Offset(v, size) == v % size
    decreases v
  {
    if v > 0 {
      OffsetIsRemainder(v - 1, size);
      var q, o := (v - 1) / size, (v - 1) % size;
      if o + 1 == size {
        assert (q + 1) * size == q * size + size;
        DivModUnique(v, q + 1, 0, size);
      } else {
        DivModUnique(v, q, o + 1, size);
      }
    } else {
      DivModUnique(0, 0, 0, size);
    }
  }

  // ---------------------------------------------------------------------------
  // The transfers of one visit
  // ---------------------------------------------------------------------------

  /** The pairs that the visit number v to a chunk transfers between. */
  function VisitPairs(chunk: nat, v: nat, size: nat): seq<Transfer>
    requires size > 0
  {
    seq(size, i requires 0 <= i < size => PairAt(chunk, v, size, i))
  }

  function PairAt(chunk: nat, v: nat, size: nat, i: nat): Transfer
    requires i < size
  {
    var dest := Dest(chunk, Wrap(i, Offset(v, size), size));
    if v % 2 == 0 then (Source(chunk, i), dest) else (dest, Source(chunk, i))
  }

  /** The zip of `generate_system_txs`. */
  function GenerateSystemTxs(source: seq<Account>, dest: seq<Account>, reclaim: bool): (txs: seq<Transfer>)
    ensures |txs| == if |source| < |dest| then |source| else |dest|
    ensures forall i :: 0 <= i < |txs| ==> txs[i] == if reclaim then (dest[i], source[i]) else (source[i], dest[i])
  {
    if source == [] || dest == [] then []
    else
      [if reclaim then (dest[0], source[0]) else (source[0], dest[0])]
        + GenerateSystemTxs(source[1..], dest[1..], reclaim)
  }

  /** Two visits in the same direction reuse a (from, to) pair exactly when the size divides their distance. */
  lemma PairReuseIff(chunk: nat, v: nat, w: nat, size: nat)
    requires size > 0 && w <= v && v % 2 == w % 2
    ensures (exists i, j :: 0 <= i < size && 0 <= j < size && PairAt(chunk, v, size, i) == PairAt(chunk, w, size, j))
       <==> (v - w) % size == 0
  {
    OffsetIsRemainder(v, size);
    OffsetIsRemainder(w, size);
    SameRemainderIff(v, w, size);
    if Offset(v, size) == Offset(w, size) {
      assert PairAt(chunk, v, size, 0) == PairAt(chunk, w, size, 0);
    }
  }

  lemma SameRemainderIff(v: nat, w: nat, d: nat)
    requires d > 0 && w <= v
    ensures v % d == w % d <==> (v - w) % d == 0
  {
    if v % d == w % d {
      DifferenceDivides(v, w, d, v / d, w / d, v % d);
    }
    if (v - w) % d == 0 {
      SumKeepsRemainder(v, w, d, (v - w) / d, w / d, w % d);
    }
  }

  lemma DifferenceDivides(v: nat, w: nat, d: nat, a: nat, b: nat, o: nat)
    requires d > 0 && w <= v && v == a * d + o && w == b * d + o
    ensures (v - w) % d == 0
  {
    var q := a - b;
    assert q * d == a * d - b * d;
    NonnegativeFactor(q, d);
    DivModUnique(v - w, q, 0, d);
  }

  lemma SumKeepsRemainder(v: nat, w: nat, d: nat, a: nat, b: nat, o: nat)
    requires d > 0 && w <= v && v - w == a * d && w == b * d + o && o < d
    ensures v % d == o
  {
    assert (a + b) * d == a * d + b * d;
    DivModUnique(v, a + b, o, d);
  }

  /** With fewer than three pairs per chunk, already the next visit in the same direction repeats them all. */
  lemma RotationTooShort(chunk: nat, v: nat, size: nat)
    requires 0 < size
    ensures VisitPairs(chunk, v, size) == VisitPairs(chunk, v + 2, size) <==> size <= 2
  {
    assert Offset(v + 2, size) == Offset(v, size) <==> size <= 2;
    if size > 2 {
      assert VisitPairs(chunk, v, size)[0] == PairAt(chunk, v, size, 0);
      assert VisitPairs(chunk, v + 2, size)[0] == PairAt(chunk, v + 2, size, 0);
    }
  }

  /** Two transfers per chunk: the first and the third visit use the same pairs. */
  lemma TwoPairsRepeat()
    ensures VisitPairs(0, 0, 2) == VisitPairs(0, 2, 2)
         == [(Source(0, 0), Dest(0, 0)), (Source(0, 1), Dest(0, 1))]
  {
    assert Offset(1, 2) == 1 && Offset(2, 2) == 0;
  }

  // ---------------------------------------------------------------------------
  // Landing one visit
  // ---------------------------------------------------------------------------

  /** One lamport moves, if the sender has one. */
  function Land(ledger: Ledger, transfer: Transfer): Ledger {
    var (from, to) := transfer;
    if Balance(ledger, from) == 0 then ledger
    else
      var debited := ledger[from := Balance(ledger, from) - 1];
      debited[to := Balance(debited, to) + 1]
  }

  function LandFirst(ledger: Ledger, transfers: seq<Transfer>, m: nat): Ledger
    requires m <= |transfers|
  {
    if m == 0 then ledger else Land(LandFirst(ledger, transfers, m - 1), transfers[m - 1])
  }

  /** What the first m transfers of a visit do to an account: senders lose one, receivers gain one. */
  function Change(k: Account, chunk: nat, v: nat, size: nat, m: nat): int
    requires size > 0
  {
    if k.chunk != chunk || k.index >= size then 0
    else
      var done := (if k.Source? then k.index else Unwrap(k.index, Offset(v, size), size)) < m;
      if !done then 0 else if k.Source? <==> v % 2 == 0 then -1 else 1
  }

  /** Everybody who sends in this visit has a lamport to send. */
  ghost predicate CanSend(ledger: Ledger, chunk: nat, v: nat, size: nat) {
    forall k: Account :: k.chunk == chunk && k.index < size && (k.Source? <==> v % 2 == 0) ==> Balance(ledger, k) >= 1
  }

  lemma {:induction false} VisitEffect(ledger: Ledger, chunk: nat, v: nat, size: nat, m: nat, k: Account)
    requires size > 0 && m <= size && CanSend(ledger, chunk, v, size)
    ensures Balance(LandFirst(ledger, VisitPairs(chunk, v, size), m), k)
         == Balance(ledger, k) + Change(k, chunk, v, size, m)
    decreases m
  {
    if m > 0 {
      var pair := PairAt(chunk, v, size, m - 1);
      VisitEffect(ledger, chunk, v, size, m - 1, k);
      VisitEffect(ledger, chunk, v, size, m - 1, pair.0);
      ChangeStep(pair.0, chunk, v, size, m);
      ChangeStep(k, chunk, v, size, m);
      LandOne(LandFirst(ledger, VisitPairs(chunk, v, size), m - 1), pair, k);
    }
  }

  /** Transfer m of a visit is the one that changes its two accounts. */
  lemma ChangeStep(k: Account, chunk: nat, v: nat, size: nat, m: nat)
    requires 0 < m <= size
    ensures var (from, to) := PairAt(chunk, v, size, m - 1);
            && from != to && from.chunk == chunk && from.index < size && (from.Source? <==> v % 2 == 0)
            && Change(from, chunk, v, size, m - 1) == 0
            && Change(k, chunk, v, size, m) - Change(k, chunk, v, size, m - 1)
               == if k == from then -1 else if k == to then 1 else 0
  {
  }

  lemma LandOne(ledger: Ledger, transfer: Transfer, k: Account)
    requires transfer.0 != transfer.1 && Balance(ledger, transfer.0) >= 1
    ensures Balance(Land(ledger, transfer), k)
         == Balance(ledger, k) + if k == transfer.0 then -1 else if k == transfer.1 then 1 else 0
  {
  }

  // ---------------------------------------------------------------------------
  // Any number of rounds
  // ---------------------------------------------------------------------------

  /** Visits to a chunk after p full passes and c further chunks. */
  function Visits(p: nat, c: nat, chunk: nat): nat {
    if chunk < c then p + 1 else p
  }

  /** Sources are at their start balance or one below it, destinations at theirs or one above. */
  ghost predicate Books(start: Ledger, ledger: Ledger, chunks: nat, size: nat, p: nat, c: nat) {
    forall k: Account :: Balance(ledger, k) == Balance(start, k) +
      if k.chunk >= chunks || k.index >= size || Visits(p, c, k.chunk) % 2 == 0 then 0
      else if k.Source? then -1 else 1
  }

  ghost predicate Affordable(start: Ledger, chunks: nat, size: nat) {
    forall k: Account :: k.Source? && k.chunk < chunks && k.index < size ==> Balance(start, k) >= 1
  }

  lemma VisitKeepsBooks(start: Ledger, ledger: Ledger, chunks: nat, size: nat, p: nat, c: nat, landed: Ledger)
    requires size > 0 && c < chunks && Affordable(start, chunks, size)
    requires Books(start, ledger, chunks, size, p, c)
    requires landed == LandFirst(ledger, VisitPairs(c, p, size), size)
    ensures Books(start, landed, chunks, size, p, c + 1)
  {
    assert CanSend(ledger, c, p, size);
    forall k: Account ensures Balance(landed, k) == Balance(ledger, k) + Change(k, c, p, size, size) {
      VisitEffect(ledger, c, p, size, size, k);
    }
  }

  lemma NextPass(start: Ledger, ledger: Ledger, dests: seq<seq<Account>>, chunks: nat, size: nat, p: nat)
    requires Books(start, ledger, chunks, size, p, chunks) && Rotations(dests, chunks, size, p, chunks)
    ensures Books(start, ledger, chunks, size, p + 1, 0) && Rotations(dests, chunks, size, p + 1, 0)
  {
  }

  lemma RotateChunk(dests: seq<seq<Account>>, chunks: nat, size: nat, p: nat, c: nat, dests': seq<seq<Account>>)
    requires Rotations(dests, chunks, size, p, c) && c < chunks
    requires dests[c] != [] && dests' == dests[c := RotateLeft(dests[c])]
    ensures Rotations(dests', chunks, size, p, c + 1)
  {
    RotateOnce(c, p, size);
  }

  lemma NextIndex(i: nat, n: nat)
    requires i < n
    ensures (i + 1) % n == if i + 1 == n then 0 else i + 1
  {
    if i + 1 == n {
      DivModUnique(n, 1, 0, n);
    } else {
      DivModUnique(i + 1, 0, i + 1, n);
    }
  }

  ghost predicate Rotations(dests: seq<seq<Account>>, chunks: nat, size: nat, p: nat, c: nat) {
    && size > 0 && |dests| == chunks
    && forall x :: 0 <= x < chunks ==> dests[x] == Rotated(x, Visits(p, c, x), size)
  }

  /** The loop's state after p full passes and c further chunks. */
  ghost predicate AtRound(
    start: Ledger, chunks: nat, size: nat, p: nat, c: nat,
    ledger: Ledger, dests: seq<seq<Account>>, chunkIndex: nat, reclaim: bool)
  {
    && c == chunkIndex < chunks && (reclaim <==> p % 2 == 1)
    && Rotations(dests, chunks, size, p, c)
    && Books(start, ledger, chunks, size, p, c)
  }

  function SourceChunk(chunk: nat, size: nat): seq<Account> {
    seq(size, i requires 0 <= i => Source(chunk, i))
  }

  function DestChunk(chunk: nat, size: nat): seq<Account> {
    seq(size, i requires 0 <= i => Dest(chunk, i))
  }

  /** The loop body: generate, let everything land, rotate, move on, and turn around after a full pass. */
  method Round(
    ledger: Ledger, sources: seq<seq<Account>>, dests: seq<seq<Account>>, chunkIndex: nat, reclaim: bool,
    ghost start: Ledger, ghost size: nat, ghost p: nat, ghost c: nat)
    returns (txs: seq<Transfer>, ledger': Ledger, dests': seq<seq<Account>>, chunkIndex': nat, reclaim': bool,
             ghost p': nat, ghost c': nat)
    requires |sources| == |dests| && forall x :: 0 <= x < |sources| ==> sources[x] == SourceChunk(x, size)
    requires AtRound(start, |dests|, size, p, c, ledger, dests, chunkIndex, reclaim)
    requires Affordable(start, |dests|, size)
    ensures txs == VisitPairs(c, p, size)
    ensures (p', c') == if c + 1 == |dests| then (p + 1, 0) else (p, c + 1)
    ensures |dests'| == |dests| && AtRound(start, |dests|, size, p', c', ledger', dests', chunkIndex', reclaim')
  {
    var chunks := |dests|;
    var dest;
    txs, ledger', dest := Visit(ledger, sources[chunkIndex], dests[chunkIndex], reclaim, c, p, size);
    dests' := dests[chunkIndex := dest];
    VisitDone(start, ledger, dests, chunks, size, p, c, ledger', dests');
    chunkIndex', reclaim', p', c' := Turn(chunkIndex, chunks, reclaim, p);
  }

  /** Generates the transfers of one chunk, lets them land, and rotates its destinations. */
  method Visit(
    ledger: Ledger, source: seq<Account>, dest: seq<Account>, reclaim: bool, ghost c: nat, ghost p: nat, ghost size: nat)
    returns (txs: seq<Transfer>, ledger': Ledger, dest': seq<Account>)
    requires size > 0 && (reclaim <==> p % 2 == 1)
    requires source == SourceChunk(c, size) && dest == Rotated(c, p, size)
    ensures txs == VisitPairs(c, p, size) && ledger' == LandFirst(ledger, txs, size)
    ensures dest != [] && dest' == RotateLeft(dest)
  {
    txs := GenerateSystemTxs(source, dest, reclaim);
    TxsOfVisit(c, p, size, reclaim, source, dest, txs);
    ledger' := LandFirst(ledger, txs, |txs|);
    dest' := RotateLeft(dest);
  }

  /** Books and rotations after a visit, counted as one more chunk or, after the last one, as one more pass. */
  lemma VisitDone(
    start: Ledger, ledger: Ledger, dests: seq<seq<Account>>, chunks: nat, size: nat, p: nat, c: nat,
    ledger': Ledger, dests': seq<seq<Account>>)
    requires size > 0 && c < chunks && Affordable(start, chunks, size)
    requires Books(start, ledger, chunks, size, p, c) && Rotations(dests, chunks, size, p, c)
    requires ledger' == LandFirst(ledger, VisitPairs(c, p, size), size)
    requires dests[c] != [] && dests' == dests[c := RotateLeft(dests[c])]
    ensures c + 1 < chunks ==> Books(start, ledger', chunks, size, p, c + 1) && Rotations(dests', chunks, size, p, c + 1)
    ensures c + 1 == chunks ==> Books(start, ledger', chunks, size, p + 1, 0) && Rotations(dests', chunks, size, p + 1, 0)
  {
    VisitKeepsBooks(start, ledger, chunks, size, p, c, ledger');
    RotateChunk(dests, chunks, size, p, c, dests');
    NextPassIfDone(start, ledger', dests', chunks, size, p, c);
  }

  lemma TxsOfVisit(
    chunk: nat, v: nat, size: nat, reclaim: bool, source: seq<Account>, dest: seq<Account>, txs: seq<Transfer>)
    requires size > 0 && (reclaim <==> v % 2 == 1)
    requires source == SourceChunk(chunk, size) && dest == Rotated(chunk, v, size)
    requires txs == GenerateSystemTxs(source, dest, reclaim)
    ensures txs == VisitPairs(chunk, v, size)
  {
  }

  lemma NextPassIfDone(start: Ledger, ledger: Ledger, dests: seq<seq<Account>>, chunks: nat, size: nat, p: nat, c: nat)
    requires Books(start, ledger, chunks, size, p, c + 1) && Rotations(dests, chunks, size, p, c + 1)
    ensures c + 1 == chunks ==> Books(start, ledger, chunks, size, p + 1, 0) && Rotations(dests, chunks, size, p + 1, 0)
  {
    if c + 1 == chunks {
      NextPass(start, ledger, dests, chunks, size, p);
    }
  }

  /** Moves on to the next chunk and switches direction after the last one. */
  method Turn(chunkIndex: nat, chunks: nat, reclaim: bool, ghost p: nat)
    returns (chunkIndex': nat, reclaim': bool, ghost p': nat, ghost c': nat)
    requires chunkIndex < chunks && (reclaim <==> p % 2 == 1)
    ensures c' == chunkIndex' < chunks && (reclaim' <==> p' % 2 == 1)
    ensures (p', c') == if chunkIndex + 1 == chunks then (p + 1, 0) else (p, chunkIndex + 1)
  {
    NextIndex(chunkIndex, chunks);
    chunkIndex', reclaim' := (chunkIndex + 1) % chunks, reclaim;
    p', c' := p, chunkIndex + 1;
    if chunkIndex' == 0 {
      reclaim' := !reclaim;
      p', c' := p + 1, 0;
    }
  }

  lemma NextRound(r: nat, p: nat, c: nat, chunks: nat)
    requires c < chunks && r == p * chunks + c
    ensures r / chunks == p && r % chunks == c
    ensures r + 1 == if c + 1 == chunks then (p + 1) * chunks else p * chunks + (c + 1)
  {
    DivModUnique(r, p, c, chunks);
    assert (p + 1) * chunks == p * chunks + chunks;
  }

  /** Round r sent the pairs of its visit. */
  ghost predicate LogOk(log: seq<seq<Transfer>>, chunks: nat, size: nat)
    requires chunks > 0 && size > 0
  {
    forall r :: 0 <= r < |log| ==> log[r] == VisitPairs(r % chunks, r / chunks, size)
  }

  lemma LogNext(log: seq<seq<Transfer>>, txs: seq<Transfer>, chunks: nat, size: nat, p: nat, c: nat)
    requires size > 0 && c < chunks && |log| == p * chunks + c
    requires LogOk(log, chunks, size) && txs == VisitPairs(c, p, size)
    ensures LogOk(log + [txs], chunks, size)
    ensures |log| + 1 == if c + 1 == chunks then (p + 1) * chunks else p * chunks + (c + 1)
  {
    NextRound(|log|, p, c, chunks);
  }

  method GenerateChunkedTransfers(start: Ledger, chunks: nat, size: nat, rounds: nat)
    returns (ledger: Ledger, log: seq<seq<Transfer>>)
    requires chunks > 0 && size > 0 && Affordable(start, chunks, size)
    ensures Books(start, ledger, chunks, size, rounds / chunks, rounds % chunks)
    ensures rounds % (2 * chunks) == 0 ==> forall k :: Balance(ledger, k) == Balance(start, k)
    ensures |log| == rounds && LogOk(log, chunks, size)
  {
    var sources := seq(chunks, x requires 0 <= x => SourceChunk(x, size));
    var dests := seq(chunks, x requires 0 <= x => DestChunk(x, size));
    var reclaim, chunkIndex := false, 0;
    ghost var p: nat, c: nat := 0, 0;
    ledger, log := start, [];
    RunStarts(start, chunks, size, dests);
    for r := 0 to rounds
      invariant |dests| == chunks && AtRound(start, chunks, size, p, c, ledger, dests, chunkIndex, reclaim)
      invariant r == p * chunks + c && |log| == r && LogOk(log, chunks, size)
    {
      var txs;
      ghost var q, d := p, c;
      txs, ledger, dests, chunkIndex, reclaim, p, c := Round(
        ledger, sources, dests, chunkIndex, reclaim, start, size, p, c);
      LogNext(log, txs, chunks, size, q, d);
      log := log + [txs];
    }
    RunEnds(start, ledger, chunks, size, rounds, p, c);
  }

  lemma RunStarts(start: Ledger, chunks: nat, size: nat, dests: seq<seq<Account>>)
    requires chunks > 0 && size > 0
    requires dests == seq(chunks, x requires 0 <= x => DestChunk(x, size))
    ensures AtRound(start, chunks, size, 0, 0, start, dests, 0, false)
  {
    assert forall x :: 0 <= x < chunks ==> dests[x] == Rotated(x, 0, size);
  }

  lemma RunEnds(start: Ledger, ledger: Ledger, chunks: nat, size: nat, rounds: nat, p: nat, c: nat)
    requires c < chunks && rounds == p * chunks + c && Books(start, ledger, chunks, size, p, c)
    ensures Books(start, ledger, chunks, size, rounds / chunks, rounds % chunks)
    ensures rounds % (2 * chunks) == 0 ==> forall k :: Balance(ledger, k) == Balance(start, k)
  {
    NextRound(rounds, p, c, chunks);
    if rounds % (2 * chunks) == 0 {
      EvenPasses(rounds, chunks);
    }
  }

  lemma EvenPasses(rounds: nat, chunks: nat)
    requires chunks > 0 && rounds % (2 * chunks) == 0
    ensures rounds % chunks == 0 && rounds / chunks % 2 == 0
  {
    var q := rounds / (2 * chunks);
    assert rounds == q * (2 * chunks) == 2 * q * chunks;
    DivModUnique(rounds, 2 * q, 0, chunks);
  }
}
