/**
 The regular 4-ary funding tree of the throughput bench (`generate_keypairs`,
 `generate_and_fund_keypairs` and `fund_keys` in `bench-tps/src/bench.rs`).

 The number of keys and the total are computed as geometric sums before anything is sent. Level by
 level, every funded account then passes a quarter of its surplus to each of four new ones. The
 sums match the divisions exactly: nothing is lost, and every key ends up with its lamports.
 */
module BenchTpsFunding {
  import opened Collections
  import opened Replays
  import opened Transfers
  import opened Wrappers

  const MAX_SPENDS_PER_TX: nat := 4
  const U64_MAX: nat := 0xffff_ffff_ffff_ffff

  // ---------------------------------------------------------------------------
  // Geometric sums
  // ---------------------------------------------------------------------------

  /** 4 to the power n. */
  function Pow4(n: nat): nat {
    if n == 0 then 1 else 4 * Pow4(n - 1)
  }

  /** 1 + 4 + ... + 4^(n-1). */
  function Geo(n: nat): nat {
    if n == 0 then 0 else Geo(n - 1) + Pow4(n - 1)
  }

  lemma {:induction false} GeoShift(n: nat)
    ensures Geo(n + 1) == 4 * Geo(n) + 1
    ensures Pow4(n) == 3 * Geo(n) + 1
    decreases n
  {
    if n > 0 {
      GeoShift(n - 1);
    }
  }

  lemma {:induction false} GeoMonotone(m: nat, n: nat)
    requires m <= n
    ensures Geo(m) <= Geo(n)
    decreases n
  {
    if m < n {
      GeoMonotone(m, n - 1);
    }
  }

  /** What a node with h levels below it must hold: a quarter of the surplus funds each child. */
  function Need(lamports: nat, maxFee: nat, h: nat): nat {
    if h == 0 then lamports else 4 * Need(lamports, maxFee, h - 1) + lamports + maxFee
  }

  lemma {:induction false} NeedClosedForm(lamports: nat, maxFee: nat, h: nat)
    ensures Need(lamports, maxFee, h) == lamports * Geo(h + 1) + maxFee * Geo(h)
    decreases h
  {
    if h == 0 {
      assert Geo(1) == Geo(0) + Pow4(0) == 1;
    } else {
      NeedClosedForm(lamports, maxFee, h - 1);
      GeoShift(h);
      GeoShift(h - 1);
      Distribute(lamports, maxFee, Geo(h), Geo(h - 1));
    }
  }

  lemma Distribute(lamports: nat, maxFee: nat, a: nat, b: nat)
    ensures 4 * (lamports * a + maxFee * b) + lamports + maxFee == lamports * (4 * a + 1) + maxFee * (4 * b + 1)
  {
    calc {
      lamports * (4 * a + 1) + maxFee * (4 * b + 1);
      4 * (lamports * a) + lamports + (4 * (maxFee * b) + maxFee);
    }
  }

  lemma {:induction false} NeedAtLeast(lamports: nat, maxFee: nat, h: nat)
    ensures Need(lamports, maxFee, h) >= lamports
    decreases h
  {
    if h > 0 {
      NeedAtLeast(lamports, maxFee, h - 1);
    }
  }

  // ---------------------------------------------------------------------------
  // Planning
  // ---------------------------------------------------------------------------

  /** The counting loop of `generate_keypairs`: the smallest full tree with at least `count` keys. */
  method GenerateKeypairs(count: nat) returns (totalKeys: nat, extra: nat, ghost depth: nat)
    requires 4 * count <= U64_MAX
    ensures totalKeys == 4 * Geo(depth) && extra == Geo(depth)
    ensures totalKeys >= count && (depth > 0 ==> 4 * Geo(depth - 1) < count)
    ensures count > 0 ==> depth > 0 && totalKeys <= 4 * count <= U64_MAX
  {
    totalKeys, extra, depth := 0, 0, 0;
    var delta := 1;
    while totalKeys < count
      invariant totalKeys == 4 * Geo(depth) && extra == Geo(depth) && delta == Pow4(depth)
      invariant delta >= 1 && (depth > 0 ==> 4 * Geo(depth - 1) < count)
      decreases count - totalKeys
    {
      extra := extra + delta;
      delta := delta * MAX_SPENDS_PER_TX;
      totalKeys := totalKeys + delta;
      depth := depth + 1;
    }
    if depth > 0 {
      GeoShift(depth - 1);
    }
  }

  /** The total requested by `generate_and_fund_keypairs` is exactly what the root of the tree needs. */
  lemma PlannedTotal(lamports: nat, maxFee: nat, depth: nat)
    ensures lamports * (4 * Geo(depth) + 1) + Geo(depth) * maxFee == Need(lamports, maxFee, depth)
  {
    NeedClosedForm(lamports, maxFee, depth);
    GeoShift(depth);
    assert Geo(depth) * maxFee == maxFee * Geo(depth);
  }

  /** Each division by four is exact: a child gets precisely what its own subtree needs. */
  lemma QuarterIsExact(lamports: nat, maxFee: nat, h: nat)
    requires h > 0
    ensures Need(lamports, maxFee, h) >= lamports + maxFee
    ensures (Need(lamports, maxFee, h) - lamports - maxFee) % MAX_SPENDS_PER_TX == 0
    ensures (Need(lamports, maxFee, h) - lamports - maxFee) / MAX_SPENDS_PER_TX == Need(lamports, maxFee, h - 1)
  {
  }

  // ---------------------------------------------------------------------------
  // The books and the ledger
  // ---------------------------------------------------------------------------

  type Fees = map<Key, nat>

  /** Parameters that stay fixed during one funding. */
  datatype Tree = Tree(base: Ledger, all: set<Key>, lamports: nat, maxFee: nat, fees: Fees) {
    /** What an account that has paid its four children keeps. */
    function Kept(k: Key): int {
      lamports + maxFee - if k in fees then fees[k] else 0
    }

    function Fee(k: Key): nat {
      if k in fees then fees[k] else 0
    }

    ghost predicate Valid() {
      forall k :: Fee(k) <= maxFee
    }
  }

  ghost predicate Holds(tree: Tree, ledger: Ledger, keys: seq<Key>, amount: nat) {
    forall k :: k in keys ==> k in tree.all && Balance(ledger, k) == Balance(tree.base, k) + amount
  }

  ghost predicate Apart(a: seq<Key>, b: seq<Key>) {
    forall k :: k in a ==> k !in b
  }

  /**
   The ledger while a level is being paid: sources still to pay hold `funds`, just funded accounts hold
   `amount`, unfunded ones nothing yet, and every account that has paid keeps its share.
   */
  ghost predicate LevelBooks(
    tree: Tree, ledger: Ledger, pending: seq<Key>, funds: nat, funded: seq<Key>, amount: nat, notFunded: seq<Key>)
  {
    && Distinct(pending) && Distinct(funded) && Distinct(notFunded)
    && Apart(pending, funded) && Apart(pending, notFunded) && Apart(funded, notFunded)
    && Holds(tree, ledger, pending, funds) && Holds(tree, ledger, funded, amount) && Holds(tree, ledger, notFunded, 0)
    && (forall k :: k in tree.all && k !in pending && k !in funded && k !in notFunded ==>
          Balance(ledger, k) == Balance(tree.base, k) + tree.Kept(k))
    && (forall k :: k !in tree.all ==> Balance(ledger, k) == Balance(tree.base, k))
  }

  lemma TailDistinct(pending: seq<Key>)
    requires pending != [] && Distinct(pending)
    ensures Distinct(pending[1..]) && pending[0] !in pending[1..]
    ensures forall k :: k in pending <==> k == pending[0] || k in pending[1..]
  {
    assert pending == [pending[0]] + pending[1..];
    ChunkIsFresh([pending[0]], pending[1..]);
    assert forall k :: k in pending[1..] ==> k !in [pending[0]];
  }

  lemma JoinDistinct(funded: seq<Key>, chunk: seq<Key>)
    requires Distinct(funded) && Distinct(chunk) && Apart(funded, chunk)
    ensures Distinct(funded + chunk)
  {
    forall i, j | 0 <= i < j < |funded + chunk| ensures (funded + chunk)[i] != (funded + chunk)[j] {
      if i < |funded| <= j {
        assert funded[i] in funded && chunk[j - |funded|] in chunk;
      }
    }
  }

  /** One source pays its four children. */
  lemma PaymentKeepsBooks(
    tree: Tree, ledger: Ledger, pending: seq<Key>, funds: nat, funded: seq<Key>, amount: nat,
    notFunded: seq<Key>, chunk: seq<Key>, landed: Ledger)
    requires tree.Valid() && pending != [] && |chunk| == 4
    requires funds == 4 * amount + tree.lamports + tree.maxFee
    requires LevelBooks(tree, ledger, pending, funds, funded, amount, notFunded + chunk)
    requires landed == Land(ledger, Payment(pending[0], Moves(chunk, amount), tree.Fee(pending[0])))
    ensures LevelBooks(tree, landed, pending[1..], funds, funded + chunk, amount, notFunded)
  {
    var from := pending[0];
    TailDistinct(pending);
    ChunkIsFresh(notFunded, chunk);
    assert forall k :: k in chunk ==> k in notFunded + chunk;
    assert forall k :: k in notFunded ==> k in notFunded + chunk;
    JoinDistinct(funded, chunk);
    assert Balance(ledger, from) == Balance(tree.base, from) + funds;
    forall k ensures Balance(landed, k)
        == if k == from then Balance(tree.base, from) + tree.Kept(from)
           else Balance(ledger, k) + if k in chunk then amount else 0
    {
      LandEffect(ledger, from, chunk, amount, tree.Fee(from), k);
    }
  }

  // ---------------------------------------------------------------------------
  // One level
  // ---------------------------------------------------------------------------

  /** The payments of a level: each source pays `amount` to four keys taken from the end of the list. */
  ghost predicate LevelPayments(toFund: seq<Payment>, sources: seq<Key>, amount: nat) {
    |toFund| <= |sources| &&
    forall t :: 0 <= t < |toFund| ==>
      && toFund[t].from == sources[t] && |toFund[t].moves| == 4
      && forall v :: 0 <= v < 4 ==> toFund[t].moves[v].1 == amount
  }

  // ---------------------------------------------------------------------------
  // The order of payments
  // ---------------------------------------------------------------------------

  ghost function Payers(payments: seq<Payment>): set<Key> {
    if payments == [] then {} else Payers(payments[..|payments| - 1]) + {payments[|payments| - 1].from}
  }

  /** Next after the given payers: a node that has not paid yet pays, at its own fee, nodes that have not either. */
  ghost predicate PaysNext(tree: Tree, payers: set<Key>, payment: Payment) {
    && payment.from in tree.all && payment.from !in payers && payment.fee == tree.Fee(payment.from)
    && Paid(payment.moves) >= 4 * tree.lamports
    && forall v :: 0 <= v < |payment.moves| ==> payment.moves[v].0 !in payers + {payment.from}
  }

  /** After the past payers, each payment in turn is next. */
  ghost predicate Orderly(tree: Tree, past: set<Key>, payments: seq<Payment>) {
    payments == [] ||
    var before, last := payments[..|payments| - 1], payments[|payments| - 1];
    Orderly(tree, past, before) && PaysNext(tree, past + Payers(before), last)
  }

  /** Whoever has paid is done: neither a source to come, nor just funded, nor unfunded. */
  ghost predicate Done(payers: set<Key>, pending: seq<Key>, funded: seq<Key>, notFunded: seq<Key>) {
    forall k :: k in payers ==> k !in pending && k !in funded && k !in notFunded
  }

  ghost predicate LevelHistory(
    tree: Tree, past: set<Key>, pending: seq<Key>, funded: seq<Key>, notFunded: seq<Key>, toFund: seq<Payment>)
  {
    Orderly(tree, past, toFund) && Done(past + Payers(toFund), pending, funded, notFunded)
  }

  lemma LevelHistoryStep(
    tree: Tree, past: set<Key>, pending: seq<Key>, funded: seq<Key>, notFunded: seq<Key>, chunk: seq<Key>,
    toFund: seq<Payment>, amount: nat, payment: Payment)
    requires LevelHistory(tree, past, pending, funded, notFunded + chunk, toFund)
    requires pending != [] && pending[0] !in pending[1..] && pending[0] !in funded && pending[0] !in notFunded + chunk
    requires pending[0] in tree.all && |chunk| == 4 && amount >= tree.lamports
    requires payment == Payment(pending[0], Moves(chunk, amount), tree.Fee(pending[0]))
    ensures LevelHistory(tree, past, pending[1..], funded + chunk, notFunded, toFund + [payment])
  {
    EqualAmounts(payment.moves, amount);
    forall v | 0 <= v < |payment.moves| ensures payment.moves[v].0 in notFunded + chunk {
      assert payment.moves[v].0 == chunk[v];
    }
    assert (toFund + [payment])[..|toFund|] == toFund;
    assert forall k :: k in chunk ==> k in notFunded + chunk;
    assert pending[0] in pending;
  }

  lemma {:induction false} OrderlyAppend(tree: Tree, past: set<Key>, payments: seq<Payment>, more: seq<Payment>)
    requires Orderly(tree, past, payments) && Orderly(tree, past + Payers(payments), more)
    ensures Orderly(tree, past, payments + more) && Payers(payments + more) == Payers(payments) + Payers(more)
    decreases |more|
  {
    if more == [] {
      assert payments + more == payments;
    } else {
      var n := |more| - 1;
      OrderlyAppend(tree, past, payments, more[..n]);
      UnionOf(past, Payers(payments), Payers(more[..n]));
      OrderlySnoc(tree, past, payments + more[..n], more[n]);
      JoinSnoc(payments, more);
    }
  }

  lemma UnionOf(a: set<Key>, b: set<Key>, c: set<Key>)
    ensures (a + b) + c == a + (b + c)
  {
  }

  lemma JoinSnoc(payments: seq<Payment>, more: seq<Payment>)
    requires more != []
    ensures payments + more == (payments + more[..|more| - 1]) + [more[|more| - 1]]
  {
  }

  lemma OrderlySnoc(tree: Tree, past: set<Key>, payments: seq<Payment>, last: Payment)
    requires Orderly(tree, past, payments) && PaysNext(tree, past + Payers(payments), last)
    ensures Orderly(tree, past, payments + [last]) && Payers(payments + [last]) == Payers(payments) + {last.from}
  {
    assert (payments + [last])[..|payments|] == payments;
  }

  /** All that holds while a level is being planned, after the first i sources. */
  ghost predicate PlanOk(
    tree: Tree, ledger: Ledger, past: set<Key>, sources: seq<Key>, funds: nat, amount: nat, notFunded: seq<Key>,
    i: nat, newFunded: seq<Key>, rest: seq<Key>, toFund: seq<Payment>)
  {
    && i <= |sources| && |toFund| == i && |newFunded| == 4 * i && |rest| == |notFunded| - 4 * i
    && LevelPayments(toFund, sources, amount) && Affordable(ledger, toFund)
    && LevelHistory(tree, past, sources[i..], newFunded, rest, toFund)
    && rest + PaidKeys(toFund) == notFunded
    && (forall k :: k in newFunded <==> k in PaidKeys(toFund))
    && LevelBooks(tree, LandAll(ledger, toFund), sources[i..], funds, newFunded, amount, rest)
  }

  lemma PlanStep(
    tree: Tree, ledger: Ledger, past: set<Key>, sources: seq<Key>, funds: nat, amount: nat, notFunded: seq<Key>,
    i: nat, newFunded: seq<Key>, rest: seq<Key>, toFund: seq<Payment>, chunk: seq<Key>, payment: Payment)
    requires tree.Valid() && funds == 4 * amount + tree.lamports + tree.maxFee && amount >= tree.lamports
    requires PlanOk(tree, ledger, past, sources, funds, amount, notFunded, i, newFunded, rest + chunk, toFund)
    requires i < |sources| && |chunk| == 4
    requires payment == Payment(sources[i], Moves(chunk, amount), tree.Fee(sources[i]))
    ensures PlanOk(tree, ledger, past, sources, funds, amount, notFunded, i + 1, newFunded + chunk, rest, toFund + [payment])
  {
    assert sources[i..][0] == sources[i] && sources[i..][1..] == sources[i + 1..];
    assert (toFund + [payment])[..i] == toFund;
    EqualAmounts(payment.moves, amount);
    assert sources[i] in sources[i..];
    TailDistinct(sources[i..]);
    LevelHistoryStep(tree, past, sources[i..], newFunded, rest, chunk, toFund, amount, payment);
    PaymentKeepsBooks(tree, LandAll(ledger, toFund), sources[i..], funds, newFunded, amount, rest, chunk,
                      LandAll(ledger, toFund + [payment]));
    assert KeysOf(payment.moves) == chunk;
    OnePaymentMore(toFund, payment, chunk);
    Associate(rest, chunk, PaidKeys(toFund));
  }

  method PlanLevel(
    sources: seq<Key>, notFunded: seq<Key>, amount: nat, fees: Fees,
    ghost tree: Tree, ghost ledger: Ledger, ghost past: set<Key>, ghost funds: nat)
    returns (newFunded: seq<Key>, rest: seq<Key>, toFund: seq<Payment>)
    requires tree.Valid() && tree.fees == fees
    requires funds == 4 * amount + tree.lamports + tree.maxFee && amount >= tree.lamports
    requires |notFunded| >= 4 * |sources| && Done(past, sources, [], notFunded)
    requires LevelBooks(tree, ledger, sources, funds, [], amount, notFunded)
    ensures PlanOk(tree, ledger, past, sources, funds, amount, notFunded, |sources|, newFunded, rest, toFund)
  {
    newFunded, rest, toFund := [], notFunded, [];
    assert sources[0..] == sources && notFunded + [] == notFunded;
    for i := 0 to |sources|
      invariant PlanOk(tree, ledger, past, sources, funds, amount, notFunded, i, newFunded, rest, toFund)
    {
      var start := |rest| - MAX_SPENDS_PER_TX;
      var chunk, before := rest[start..], rest[..start];
      assert rest == before + chunk;
      var f := sources[i];
      var payment := Payment(f, Moves(chunk, amount), if f in fees then fees[f] else 0);
      PlanStep(tree, ledger, past, sources, funds, amount, notFunded, i, newFunded, before, toFund, chunk, payment);
      toFund, newFunded, rest := toFund + [payment], newFunded + chunk, before;
    }
  }

  // ---------------------------------------------------------------------------
  // All levels
  // ---------------------------------------------------------------------------

  /** Everything that holds before level j of a tree of the given depth. */
  ghost predicate AtLevel(
    tree: Tree, dests: seq<Key>, depth: nat, j: nat, ledger: Ledger,
    sources: seq<Key>, funds: nat, notFunded: seq<Key>, payments: seq<Payment>)
  {
    && j <= depth && |sources| == Pow4(j) && |notFunded| == 4 * Geo(depth) - 4 * Geo(j)
    && funds == Need(tree.lamports, tree.maxFee, depth - j)
    && notFunded + PaidKeys(payments) == dests
    && LevelBooks(tree, ledger, sources, funds, [], 0, notFunded)
    && Done(Payers(payments), sources, [], notFunded)
    && (j > 0 ==> |notFunded| + |sources| <= |dests|
                  && forall k :: k in sources <==> k in dests[|notFunded|..|notFunded| + |sources|])
  }

  /** A level with sources left to pay has exactly enough keys to drain. */
  lemma LevelHasKeys(depth: nat, j: nat)
    requires j <= depth
    ensures 4 * Geo(depth) - 4 * Geo(j) == 0 <==> j == depth
    ensures j < depth ==> 4 * Geo(depth) - 4 * Geo(j) >= 4 * Pow4(j)
  {
    if j < depth {
      GeoMonotone(j + 1, depth);
      GeoShift(j);
    }
  }

  lemma SameBooks(tree: Tree, ledger: Ledger, keys: seq<Key>, amount: nat, x: nat, y: nat, notFunded: seq<Key>)
    ensures LevelBooks(tree, ledger, keys, amount, [], x, notFunded)
       <==> LevelBooks(tree, ledger, [], y, keys, amount, notFunded)
  {
  }

  lemma Segment(rest: seq<Key>, level: seq<Key>, paid: seq<Key>)
    ensures (rest + (level + paid))[|rest|..|rest| + |level|] == level
  {
  }

  lemma {:induction false} PaidKeysLength(toFund: seq<Payment>, sources: seq<Key>, amount: nat)
    requires LevelPayments(toFund, sources, amount)
    ensures |PaidKeys(toFund)| == 4 * |toFund|
    decreases |toFund|
  {
    if toFund != [] {
      PaidKeysLength(toFund[..|toFund| - 1], sources, amount);
    }
  }

  /** What planning a level can rely on. */
  lemma LevelStarts(
    tree: Tree, dests: seq<Key>, depth: nat, j: nat, ledger: Ledger, sources: seq<Key>, funds: nat,
    notFunded: seq<Key>, payments: seq<Payment>)
    requires AtLevel(tree, dests, depth, j, ledger, sources, funds, notFunded, payments) && notFunded != []
    ensures j < depth && |notFunded| >= 4 * |sources|
    ensures var amount := Need(tree.lamports, tree.maxFee, depth - j - 1);
            && amount >= tree.lamports && funds == 4 * amount + tree.lamports + tree.maxFee
            && LevelBooks(tree, ledger, sources, funds, [], amount, notFunded)
  {
    LevelHasKeys(depth, j);
    QuarterIsExact(tree.lamports, tree.maxFee, depth - j);
    NeedAtLeast(tree.lamports, tree.maxFee, depth - j - 1);
    var amount := Need(tree.lamports, tree.maxFee, depth - j - 1);
    SameBooks(tree, ledger, sources, funds, 0, funds, notFunded);
    SameBooks(tree, ledger, sources, funds, amount, funds, notFunded);
  }

  /** The body of the loop of `fund_keys`. */
  method FundLevel(
    ledger: Ledger, sources: seq<Key>, funds: nat, notFunded: seq<Key>, lamports: nat, maxFee: nat, fees: Fees,
    ghost tree: Tree, ghost dests: seq<Key>, ghost depth: nat, ghost j: nat, ghost payments: seq<Payment>)
    returns (ledger': Ledger, sources': seq<Key>, funds': nat, notFunded': seq<Key>, toFund: seq<Payment>)
    requires tree.Valid() && tree.fees == fees && tree.lamports == lamports && tree.maxFee == maxFee
    requires AtLevel(tree, dests, depth, j, ledger, sources, funds, notFunded, payments) && notFunded != []
    requires Orderly(tree, {}, payments)
    ensures j < depth
    ensures AtLevel(tree, dests, depth, j + 1, ledger', sources', funds', notFunded', payments + toFund)
    ensures LevelPayments(toFund, sources, funds') && |toFund| == Pow4(j)
    ensures Affordable(ledger, toFund) && ledger' == LandAll(ledger, toFund)
    ensures Orderly(tree, {}, payments + toFund)
  {
    LevelStarts(tree, dests, depth, j, ledger, sources, funds, notFunded, payments);
    funds' := (funds - lamports - maxFee) / MAX_SPENDS_PER_TX;
    ledger', sources', notFunded', toFund := PayLevel(
      ledger, sources, notFunded, funds', fees, tree, dests, depth, j, funds, payments);
  }

  /** Plans a level and lets its payments land. */
  method PayLevel(
    ledger: Ledger, sources: seq<Key>, notFunded: seq<Key>, amount: nat, fees: Fees,
    ghost tree: Tree, ghost dests: seq<Key>, ghost depth: nat, ghost j: nat, ghost funds: nat,
    ghost payments: seq<Payment>)
    returns (ledger': Ledger, sources': seq<Key>, notFunded': seq<Key>, toFund: seq<Payment>)
    requires tree.Valid() && tree.fees == fees && j < depth
    requires amount == Need(tree.lamports, tree.maxFee, depth - j - 1) >= tree.lamports
    requires funds == 4 * amount + tree.lamports + tree.maxFee
    requires |sources| == Pow4(j) && |notFunded| == 4 * Geo(depth) - 4 * Geo(j) >= 4 * |sources|
    requires LevelBooks(tree, ledger, sources, funds, [], amount, notFunded)
    requires notFunded + PaidKeys(payments) == dests && Done(Payers(payments), sources, [], notFunded)
    requires Orderly(tree, {}, payments)
    ensures AtLevel(tree, dests, depth, j + 1, ledger', sources', amount, notFunded', payments + toFund)
    ensures LevelPayments(toFund, sources, amount) && |toFund| == Pow4(j)
    ensures Affordable(ledger, toFund) && ledger' == LandAll(ledger, toFund)
    ensures Orderly(tree, {}, payments + toFund)
  {
    sources', notFunded', toFund := PlanLevel(
      sources, notFunded, amount, fees, tree, ledger, Payers(payments), funds);
    ledger' := LandAll(ledger, toFund);
    LevelDone(tree, dests, depth, j, ledger, sources, funds, notFunded, payments, amount, sources', notFunded', toFund);
  }

  /** A fully planned level leads to the next one. */
  lemma LevelDone(
    tree: Tree, dests: seq<Key>, depth: nat, j: nat, ledger: Ledger, sources: seq<Key>, funds: nat,
    notFunded: seq<Key>, payments: seq<Payment>, funds': nat, sources': seq<Key>, notFunded': seq<Key>,
    toFund: seq<Payment>)
    requires j < depth && funds' == Need(tree.lamports, tree.maxFee, depth - j - 1)
    requires |sources| == Pow4(j) && |notFunded| == 4 * Geo(depth) - 4 * Geo(j) && notFunded + PaidKeys(payments) == dests
    requires PlanOk(tree, ledger, Payers(payments), sources, funds, funds', notFunded, |sources|,
                    sources', notFunded', toFund)
    requires Orderly(tree, {}, payments)
    ensures AtLevel(tree, dests, depth, j + 1, LandAll(ledger, toFund), sources', funds', notFunded', payments + toFund)
    ensures Orderly(tree, {}, payments + toFund)
  {
    assert sources[|sources|..] == [];
    SameBooks(tree, LandAll(ledger, toFund), sources', funds', 0, funds, notFunded');
    PaidKeysAppend(payments, toFund);
    Associate(notFunded', PaidKeys(toFund), PaidKeys(payments));
    Segment(notFunded', PaidKeys(toFund), PaidKeys(payments));
    PaidKeysLength(toFund, sources, funds');
    assert {} + Payers(payments) == Payers(payments);
    OrderlyAppend(tree, {}, payments, toFund);
  }

  /** Where the money is once the tree is complete. */
  ghost predicate Settled(tree: Tree, dests: seq<Key>, depth: nat, ledger: Ledger) {
    && Pow4(depth) <= |dests| + 1
    && (forall i :: 0 <= i < |dests| ==>
          Balance(ledger, dests[i]) == Balance(tree.base, dests[i])
            + if i < Pow4(depth) then tree.lamports else tree.Kept(dests[i]))
    && (forall k :: k in tree.all && k !in dests ==> Balance(ledger, k) == Balance(tree.base, k) + tree.Kept(k))
    && (forall k :: k !in tree.all ==> Balance(ledger, k) == Balance(tree.base, k))
  }

  lemma SettledAfterLastLevel(
    tree: Tree, dests: seq<Key>, depth: nat, ledger: Ledger, sources: seq<Key>, funds: nat, payments: seq<Payment>)
    requires depth > 0 && Distinct(dests) && |dests| == 4 * Geo(depth)
    requires AtLevel(tree, dests, depth, depth, ledger, sources, funds, [], payments)
    requires forall k :: k in dests ==> k in tree.all
    ensures Settled(tree, dests, depth, ledger)
  {
    GeoShift(depth);
    forall i | 0 <= i < |dests|
      ensures Balance(ledger, dests[i]) == Balance(tree.base, dests[i])
                + if i < Pow4(depth) then tree.lamports else tree.Kept(dests[i])
    {
      if i < Pow4(depth) {
        assert dests[0..Pow4(depth)][i] == dests[i];
      } else {
        assert dests[i] !in dests[0..Pow4(depth)];
      }
    }
    forall k | k in tree.all && k !in dests ensures Balance(ledger, k) == Balance(tree.base, k) + tree.Kept(k) {
      assert k !in dests[0..Pow4(depth)];
    }
  }

  lemma FirstLevel(tree: Tree, ledger: Ledger, source: Key, dests: seq<Key>, depth: nat, total: nat)
    requires Distinct(dests) && source !in dests && |dests| == 4 * Geo(depth)
    requires total == Need(tree.lamports, tree.maxFee, depth) <= Balance(ledger, source)
    requires tree.base == ledger[source := Balance(ledger, source) - total]
    requires tree.all == {source} + set k | k in dests
    ensures AtLevel(tree, dests, depth, 0, ledger, [source], total, dests, [])
  {
    assert dests + [] == dests;
    assert forall k :: k in [source] <==> k == source;
  }

  /** The tree as planned: the source's balance beyond `total` is none of its business. */
  ghost function PlannedTree(
    ledger: Ledger, source: Key, dests: seq<Key>, total: nat, maxFee: nat, lamports: nat, fees: Fees): Tree
    requires total <= Balance(ledger, source)
  {
    Tree(ledger[source := Balance(ledger, source) - total], {source} + (set k | k in dests), lamports, maxFee, fees)
  }

  /** All payments before level j: applied in turn, in order, the latest of them to the sources. */
  ghost predicate History(tree: Tree, j: nat, start: Ledger, ledger: Ledger, funds: nat, payments: seq<Payment>) {
    && Affordable(start, payments) && ledger == LandAll(start, payments) && Orderly(tree, {}, payments)
    && |payments| == Geo(j) && (j > 0 ==> payments != [] && Paid(payments[|payments| - 1].moves) == 4 * funds)
  }

  lemma HistoryStep(
    tree: Tree, j: nat, start: Ledger, ledger: Ledger, funds: nat, payments: seq<Payment>,
    sources: seq<Key>, funds': nat, toFund: seq<Payment>)
    requires History(tree, j, start, ledger, funds, payments)
    requires LevelPayments(toFund, sources, funds') && Affordable(ledger, toFund) && |toFund| == Pow4(j)
    requires Orderly(tree, {}, payments + toFund)
    ensures History(tree, j + 1, start, LandAll(ledger, toFund), funds', payments + toFund)
  {
    AffordableAppend(start, payments, toFund);
    LastPayment(payments, toFund, sources, funds', j);
  }

  lemma LastPayment(payments: seq<Payment>, toFund: seq<Payment>, sources: seq<Key>, amount: nat, j: nat)
    requires LevelPayments(toFund, sources, amount) && |toFund| == Pow4(j)
    ensures |payments + toFund| > 0 && Paid((payments + toFund)[|payments + toFund| - 1].moves) == 4 * amount
  {
    GeoShift(j);
    EqualAmounts(toFund[|toFund| - 1].moves, amount);
  }

  /** One level, with its place in the history. */
  method RunLevel(
    ledger: Ledger, sources: seq<Key>, funds: nat, notFunded: seq<Key>, payments: seq<Payment>,
    lamports: nat, maxFee: nat, fees: Fees,
    ghost tree: Tree, ghost dests: seq<Key>, ghost depth: nat, ghost j: nat, ghost start: Ledger)
    returns (ledger': Ledger, sources': seq<Key>, funds': nat, notFunded': seq<Key>, payments': seq<Payment>)
    requires tree.Valid() && tree.fees == fees && tree.lamports == lamports && tree.maxFee == maxFee
    requires AtLevel(tree, dests, depth, j, ledger, sources, funds, notFunded, payments) && notFunded != []
    requires History(tree, j, start, ledger, funds, payments)
    ensures j < depth
    ensures AtLevel(tree, dests, depth, j + 1, ledger', sources', funds', notFunded', payments')
    ensures History(tree, j + 1, start, ledger', funds', payments')
  {
    var toFund;
    ledger', sources', funds', notFunded', toFund := FundLevel(
      ledger, sources, funds, notFunded, lamports, maxFee, fees, tree, dests, depth, j, payments);
    HistoryStep(tree, j, start, ledger, funds, payments, sources, funds', toFund);
    payments' := payments + toFund;
  }

  /** The loop of `fund_keys`, level after level until no key is left. */
  method RunLevels(
    ledger: Ledger, sources: seq<Key>, total: nat, dests: seq<Key>, lamports: nat, maxFee: nat, fees: Fees,
    ghost tree: Tree, ghost depth: nat)
    returns (ledger': Ledger, payments: seq<Payment>, ghost sources': seq<Key>, ghost funds: nat)
    requires tree.Valid() && tree.fees == fees && tree.lamports == lamports && tree.maxFee == maxFee
    requires AtLevel(tree, dests, depth, 0, ledger, sources, total, dests, [])
    ensures AtLevel(tree, dests, depth, depth, ledger', sources', funds, [], payments)
    ensures History(tree, depth, ledger, ledger', funds, payments)
  {
    var funded, fundedFunds, notFunded := sources, total, dests;
    ghost var level := 0;
    ledger', payments := ledger, [];
    while notFunded != []
      invariant AtLevel(tree, dests, depth, level, ledger', funded, fundedFunds, notFunded, payments)
      invariant History(tree, level, ledger, ledger', fundedFunds, payments)
      decreases depth - level
    {
      ledger', funded, fundedFunds, notFunded, payments := RunLevel(
        ledger', funded, fundedFunds, notFunded, payments, lamports, maxFee, fees, tree, dests, depth, level, ledger);
      level := level + 1;
    }
    LevelHasKeys(depth, level);
    sources', funds := funded, fundedFunds;
  }

  /** The payments of a completed tree, each applied in turn, the last one to leaves. */
  ghost predicate TreePayments(tree: Tree, start: Ledger, ledger: Ledger, payments: seq<Payment>) {
    && Affordable(start, payments) && ledger == LandAll(start, payments) && Orderly(tree, {}, payments)
    && payments != [] && Paid(payments[|payments| - 1].moves) == 4 * tree.lamports
    && forall k :: k in Payers(payments) ==> Balance(ledger, k) == Balance(tree.base, k) + tree.Kept(k)
  }

  lemma {:induction false} PayersInTree(tree: Tree, payments: seq<Payment>)
    requires Orderly(tree, {}, payments)
    ensures Payers(payments) <= tree.all
    decreases |payments|
  {
    if payments != [] {
      PayersInTree(tree, payments[..|payments| - 1]);
    }
  }

  lemma TreeDone(
    tree: Tree, dests: seq<Key>, depth: nat, start: Ledger, ledger: Ledger,
    sources: seq<Key>, funds: nat, payments: seq<Payment>)
    requires depth > 0 && AtLevel(tree, dests, depth, depth, ledger, sources, funds, [], payments)
    requires History(tree, depth, start, ledger, funds, payments)
    ensures TreePayments(tree, start, ledger, payments)
  {
    PayersInTree(tree, payments);
  }

  /** Funds all keys of a full tree; every transaction lands once, at a fee of at most `maxFee`. */
  method FundKeys(
    ledger: Ledger, source: Key, dests: seq<Key>, total: nat, maxFee: nat, lamports: nat, fees: Fees,
    ghost depth: nat)
    returns (ledger': Ledger, payments: seq<Payment>)
    requires depth > 0 && |dests| == 4 * Geo(depth) && total == Need(lamports, maxFee, depth) <= U64_MAX
    requires Distinct(dests) && source !in dests && Balance(ledger, source) >= total
    requires forall k :: k in fees ==> fees[k] <= maxFee
    ensures PaidKeys(payments) == dests && |payments| == Geo(depth)
    ensures Settled(PlannedTree(ledger, source, dests, total, maxFee, lamports, fees), dests, depth, ledger')
    ensures TreePayments(
      PlannedTree(ledger, source, dests, total, maxFee, lamports, fees), ledger, ledger', payments)
  {
    ghost var tree := PlannedTree(ledger, source, dests, total, maxFee, lamports, fees);
    FirstLevel(tree, ledger, source, dests, depth, total);
    ghost var sources, funds;
    ledger', payments, sources, funds := RunLevels(
      ledger, [source], total, dests, lamports, maxFee, fees, tree, depth);
    SettledAfterLastLevel(tree, dests, depth, ledger', sources, funds, payments);
    TreeDone(tree, dests, depth, ledger, ledger', sources, funds, payments);
    assert [] + PaidKeys(payments) == PaidKeys(payments);
  }

  datatype Funding = AlreadyFunded | Funded

  lemma TotalFits(lamports: nat, maxFee: nat, keys: nat, extra: nat, count: nat)
    requires keys == 4 * extra && keys <= 4 * count
    ensures lamports * (keys + 1) + extra * maxFee <= lamports * (4 * count + 1) + maxFee * count
  {
    assert lamports * (keys + 1) <= lamports * (4 * count + 1);
    assert extra * maxFee <= count * maxFee;
  }

  /**
   Creates and funds `count` keys out of the key stream `pool`. Funding is skipped when the first and
   the last key sampled still have four fifths of their lamports; it fails only with the airdrop.
   */
  method GenerateAndFundKeypairs(
    ledger: Ledger, fundingKey: Key, pool: seq<Key>, count: nat, lamports: nat, maxFee: nat, fees: Fees,
    airdropSucceeds: bool)
    returns (r: Result<(seq<Key>, Funding), ()>, ledger': Ledger, ghost depth: nat)
    requires 0 < count && 4 * count <= |pool| && 4 * count <= U64_MAX
    requires lamports * (4 * count + 1) + maxFee * count <= U64_MAX && 8 * lamports <= U64_MAX
    requires Distinct(pool) && fundingKey !in pool
    requires forall k :: k in fees ==> fees[k] <= maxFee
    ensures r.Ok? ==> r.value.0 == pool[..count]
    ensures depth > 0 && 4 * Geo(depth - 1) < count <= 4 * Geo(depth)
    ensures r.Err? ==> ledger' == ledger
    ensures r.Err? <==>
      && (Balance(ledger, pool[0]) < 8 * lamports / 10 || Balance(ledger, pool[count - 1]) < 8 * lamports / 10)
      && Balance(ledger, fundingKey) < Need(lamports, maxFee, depth) && !airdropSucceeds
    ensures r.Ok? && r.value.1.Funded? ==>
      Balance(ledger', fundingKey) + (if fundingKey in fees then fees[fundingKey] else 0)
        == Max(Balance(ledger, fundingKey), Need(lamports, maxFee, depth))
           - Need(lamports, maxFee, depth) + lamports + maxFee
    ensures r.Ok? && r.value.1.AlreadyFunded? ==> ledger' == ledger
    ensures r.Ok? && r.value.1.AlreadyFunded? <==>
      Balance(ledger, pool[0]) >= 8 * lamports / 10 && Balance(ledger, pool[count - 1]) >= 8 * lamports / 10
    ensures r.Ok? && r.value.1.Funded? ==> forall i :: 0 <= i < count ==>
      Balance(ledger, pool[i]) + lamports <= Balance(ledger', pool[i]) <= Balance(ledger, pool[i]) + lamports + maxFee
  {
    var totalKeys, extra;
    totalKeys, extra, depth := GenerateKeypairs(count);
    var keypairs := pool[..totalKeys];
    var enough := 8 * lamports / 10;
    ledger' := ledger;
    if Balance(ledger, keypairs[0]) >= enough && Balance(ledger, keypairs[count - 1]) >= enough {
      return Ok((keypairs[..count], AlreadyFunded)), ledger, depth;
    }
    TotalFits(lamports, maxFee, totalKeys, extra, count);
    PlannedTotal(lamports, maxFee, depth);
    var total := lamports * (|keypairs| + 1) + extra * maxFee;
    if Balance(ledger, fundingKey) < total {
      if !airdropSucceeds {
        return Err(()), ledger, depth;
      }
      ledger' := ledger[fundingKey := total];
    }
    ledger' := FundGenerated(ledger', fundingKey, keypairs, total, maxFee, lamports, fees, depth);
    forall i | 0 <= i < count
      ensures Balance(ledger, pool[i]) + lamports <= Balance(ledger', pool[i])
              <= Balance(ledger, pool[i]) + lamports + maxFee
    {
      assert keypairs[i] == pool[i] && pool[i] != fundingKey;
    }
    assert keypairs[..count] == pool[..count];
    r := Ok((keypairs[..count], Funded));
  }

  /** The part of the outcome of `fund_keys` that its caller counts on. */
  method FundGenerated(
    ledger: Ledger, source: Key, dests: seq<Key>, total: nat, maxFee: nat, lamports: nat, fees: Fees,
    ghost depth: nat)
    returns (ledger': Ledger)
    requires depth > 0 && |dests| == 4 * Geo(depth) && total == Need(lamports, maxFee, depth) <= U64_MAX
    requires Distinct(dests) && source !in dests && Balance(ledger, source) >= total
    requires forall k :: k in fees ==> fees[k] <= maxFee
    ensures forall i :: 0 <= i < |dests| ==>
      Balance(ledger, dests[i]) + lamports <= Balance(ledger', dests[i])
        <= Balance(ledger, dests[i]) + lamports + maxFee
    ensures Balance(ledger', source) + (if source in fees then fees[source] else 0)
         == Balance(ledger, source) - total + lamports + maxFee
  {
    var payments;
    ledger', payments := FundKeys(ledger, source, dests, total, maxFee, lamports, fees, depth);
    forall i | 0 <= i < |dests|
      ensures Balance(ledger, dests[i]) + lamports <= Balance(ledger', dests[i])
              <= Balance(ledger, dests[i]) + lamports + maxFee
    {
      assert dests[i] != source;
    }
  }

  // ---------------------------------------------------------------------------
  // Replays
  // ---------------------------------------------------------------------------

  /**
   In a state that the funding loop reaches, the transactions of the level can be replayed exactly if two
   applications cost more than any source holds: its funds, and whatever it held before.
   */
  lemma LevelReplayIff(
    tree: Tree, dests: seq<Key>, depth: nat, j: nat, ledger: Ledger, sources: seq<Key>, funds: nat,
    notFunded: seq<Key>, payments: seq<Payment>, plan: seq<Payment>, minFee: nat)
    requires AtLevel(tree, dests, depth, j, ledger, sources, funds, notFunded, payments) && j < depth
    requires |plan| == |sources| && LevelPayments(plan, sources, Need(tree.lamports, tree.maxFee, depth - j - 1))
    requires forall t, v | 0 <= t < |plan| && 0 <= v < 4 :: plan[t].moves[v].0 in notFunded
    ensures AtMostOnce(plan, ledger, minFee) <==>
      forall t :: 0 <= t < |sources| ==>
        4 * Need(tree.lamports, tree.maxFee, depth - j - 1) + 2 * minFee
          > Balance(tree.base, sources[t]) + tree.lamports + tree.maxFee
  {
    var amount := Need(tree.lamports, tree.maxFee, depth - j - 1);
    PlanShape(sources, notFunded, plan);
    AtMostOnceIff(plan, ledger, minFee);
    forall t | 0 <= t < |plan|
      ensures Balance(ledger, plan[t].from) == Balance(tree.base, sources[t]) + funds && Paid(plan[t].moves) == 4 * amount
    {
      assert plan[t].from in sources;
      EqualAmounts(plan[t].moves, amount);
    }
  }

  /** For sources that held nothing before, above the leaves: exactly if 3 * lamports + 2 * fee > maxFee. */
  lemma FreshLevelReplayIff(
    tree: Tree, dests: seq<Key>, depth: nat, ledger: Ledger, sources: seq<Key>, funds: nat,
    notFunded: seq<Key>, payments: seq<Payment>, plan: seq<Payment>, minFee: nat)
    requires depth > 0 && AtLevel(tree, dests, depth, depth - 1, ledger, sources, funds, notFunded, payments)
    requires forall k :: k in sources ==> Balance(tree.base, k) == 0
    requires |plan| == |sources| && LevelPayments(plan, sources, tree.lamports)
    requires forall t, v | 0 <= t < |plan| && 0 <= v < 4 :: plan[t].moves[v].0 in notFunded
    ensures AtMostOnce(plan, ledger, minFee) <==> 3 * tree.lamports + 2 * minFee > tree.maxFee
  {
    LevelReplayIff(tree, dests, depth, depth - 1, ledger, sources, funds, notFunded, payments, plan, minFee);
    GeoShift(depth - 1);
    assert sources[0] in sources && Need(tree.lamports, tree.maxFee, 0) == tree.lamports;
  }

  lemma PlanShape(sources: seq<Key>, notFunded: seq<Key>, plan: seq<Payment>)
    requires Distinct(sources) && Apart(sources, notFunded) && |plan| == |sources|
    requires forall t :: 0 <= t < |plan| ==> plan[t].from == sources[t] && |plan[t].moves| == 4
    requires forall t, v | 0 <= t < |plan| && 0 <= v < 4 :: plan[t].moves[v].0 in notFunded
    ensures WellFormed(plan) && PayersUnpaid(plan)
  {
    forall s, t, v | 0 <= s < |plan| && 0 <= t < |plan| && 0 <= v < |plan[t].moves|
      ensures plan[s].from != plan[t].moves[v].0
    {
      assert sources[s] in sources;
    }
  }

  lemma {:induction false} OrderlyAt(tree: Tree, payments: seq<Payment>, n: nat, t: nat)
    requires n <= |payments| && t < n && Orderly(tree, {}, payments[..n])
    ensures PaysNext(tree, Payers(payments[..t]), payments[t]) && payments[t].from in Payers(payments[..n])
    decreases n
  {
    assert payments[..n][..n - 1] == payments[..n - 1];
    assert {} + Payers(payments[..n - 1]) == Payers(payments[..n - 1]);
    if t < n - 1 {
      OrderlyAt(tree, payments, n - 1, t);
    }
  }

  lemma OrderlyShape(tree: Tree, payments: seq<Payment>)
    requires Orderly(tree, {}, payments)
    ensures WellFormed(payments) && PaidFirst(payments)
    ensures forall t :: 0 <= t < |payments| ==> payments[t].from in Payers(payments) && Paid(payments[t].moves) >= 4 * tree.lamports
  {
    assert payments[..|payments|] == payments;
    forall t | 0 <= t < |payments|
      ensures PaysNext(tree, Payers(payments[..t]), payments[t]) && payments[t].from in Payers(payments)
    {
      OrderlyAt(tree, payments, |payments|, t);
    }
    forall s, t | 0 <= s < t < |payments| ensures payments[s].from in Payers(payments[..t]) {
      OrderlyPrefix(tree, payments, |payments|, t);
      OrderlyAt(tree, payments, t, s);
    }
  }

  lemma {:induction false} OrderlyPrefix(tree: Tree, payments: seq<Payment>, n: nat, t: nat)
    requires t <= n <= |payments| && Orderly(tree, {}, payments[..n])
    ensures Orderly(tree, {}, payments[..t])
    decreases n
  {
    if t < n {
      assert payments[..n][..n - 1] == payments[..n - 1];
      OrderlyPrefix(tree, payments, n - 1, t);
    }
  }

  lemma {:induction false} OutgoingOnce(payments: seq<Payment>, n: nat, t: nat)
    requires WellFormed(payments) && t < n <= |payments|
    ensures Outgoing(payments[..n], payments[t].from) == payments[t].fee + Paid(payments[t].moves)
    decreases n
  {
    assert payments[..n][..n - 1] == payments[..n - 1];
    if t == n - 1 {
      NothingOutgoing(payments, t, payments[t].from);
    } else {
      OutgoingOnce(payments, n - 1, t);
    }
  }

  /** Whatever a node held and gets in all covers its payment, its lamports and the largest fee. */
  lemma NodeFunds(tree: Tree, start: Ledger, ledger: Ledger, payments: seq<Payment>, t: nat)
    requires TreePayments(tree, start, ledger, payments) && t < |payments|
    ensures Balance(start, payments[t].from) + Incoming(payments, payments[t].from)
         == Balance(tree.base, payments[t].from) + Paid(payments[t].moves) + tree.lamports + tree.maxFee
  {
    assert payments[..|payments|] == payments;
    OrderlyShape(tree, payments);
    OrderlyAt(tree, payments, |payments|, t);
    LandAllConserves(start, payments, payments[t].from);
    OutgoingOnce(payments, |payments|, t);
  }

  /**
   Over the whole tree: however all its transactions are resent, across levels and in any order, none
   applies twice, if and only if each costs more, with two fees, than what its source holds beyond it: its
   lamports, the largest fee, and whatever it held before.
   */
  lemma TreeReplayIff(tree: Tree, start: Ledger, ledger: Ledger, payments: seq<Payment>, minFee: nat)
    requires TreePayments(tree, start, ledger, payments)
    requires forall t :: 0 <= t < |payments| ==> payments[t].fee >= minFee
    ensures AtMostOnce(payments, start, minFee) <==>
      forall t :: 0 <= t < |payments| ==>
        Paid(payments[t].moves) + 2 * minFee > Balance(tree.base, payments[t].from) + tree.lamports + tree.maxFee
  {
    OrderlyShape(tree, payments);
    OrderlyIff(payments, start, minFee);
    forall t | 0 <= t < |payments|
      ensures Balance(start, payments[t].from) + Incoming(payments, payments[t].from)
           == Balance(tree.base, payments[t].from) + Paid(payments[t].moves) + tree.lamports + tree.maxFee
    {
      NodeFunds(tree, start, ledger, payments, t);
    }
  }

  /** If nobody held anything before: if and only if 3 * lamports + 2 * fee > maxFee. */
  lemma FreshTreeReplayIff(tree: Tree, start: Ledger, ledger: Ledger, payments: seq<Payment>, minFee: nat)
    requires TreePayments(tree, start, ledger, payments)
    requires forall k :: k in Payers(payments) ==> Balance(tree.base, k) == 0
    requires forall t :: 0 <= t < |payments| ==> payments[t].fee >= minFee
    ensures AtMostOnce(payments, start, minFee) <==> 3 * tree.lamports + 2 * minFee > tree.maxFee
  {
    TreeReplayIff(tree, start, ledger, payments, minFee);
    OrderlyShape(tree, payments);
    assert Paid(payments[|payments| - 1].moves) == 4 * tree.lamports;
  }

  /** A funding key, or any other node, that held enough for its payment and two fees before can pay twice. */
  lemma RichKeyPaysTwice(tree: Tree, start: Ledger, ledger: Ledger, payments: seq<Payment>, minFee: nat, t: nat)
    requires TreePayments(tree, start, ledger, payments) && t < |payments|
    requires forall i :: 0 <= i < |payments| ==> payments[i].fee >= minFee
    requires Balance(tree.base, payments[t].from) >= Paid(payments[t].moves) + 2 * minFee
    ensures !AtMostOnce(payments, start, minFee)
  {
    TreeReplayIff(tree, start, ledger, payments, minFee);
  }

  /** One lamport each and an uncharged largest fee of three: the last transaction of the tree applies twice. */
  lemma ReplayPaysTwice(tree: Tree, start: Ledger, ledger: Ledger, payments: seq<Payment>)
    requires TreePayments(tree, start, ledger, payments) && tree.lamports == 1 && tree.maxFee == 3
    ensures var n := |payments| - 1;
            var last := payments[n].(fee := 0);
            Applied(start, payments[..n] + [last] + [last], last.from) >= 2
  {
    var n := |payments| - 1;
    OrderlyShape(tree, payments);
    FundsBeforeTurn(payments, start, n);
    NodeFunds(tree, start, ledger, payments, n);
    TwiceInARow(start, payments[..n], payments[n].(fee := 0));
  }

  // ---------------------------------------------------------------------------
  // What a passed check means
  // ---------------------------------------------------------------------------

  /** The check that decides on resends: the first recipient whose balance can be read holds the amount. */
  predicate VerifyFundingTransfer(ledger: Ledger, readable: set<Key>, moves: seq<(Key, nat)>, amount: nat)
    decreases |moves|
  {
    moves != [] &&
    if moves[0].0 in readable then Balance(ledger, moves[0].0) >= amount
    else VerifyFundingTransfer(ledger, readable, moves[1..], amount)
  }

  /** Recipient v can be read and holds the amount; none before it can be read. */
  ghost predicate HoldsFirst(ledger: Ledger, readable: set<Key>, moves: seq<(Key, nat)>, amount: nat, v: nat) {
    && v < |moves| && moves[v].0 in readable && Balance(ledger, moves[v].0) >= amount
    && forall u :: 0 <= u < v ==> moves[u].0 !in readable
  }

  lemma {:induction false} VerifyFundingTransferIff(
    ledger: Ledger, readable: set<Key>, moves: seq<(Key, nat)>, amount: nat)
    ensures VerifyFundingTransfer(ledger, readable, moves, amount) <==>
      exists v: nat :: HoldsFirst(ledger, readable, moves, amount, v)
    decreases |moves|
  {
    if moves == [] {
    } else if moves[0].0 in readable {
      assert HoldsFirst(ledger, readable, moves, amount, 0) <==> Balance(ledger, moves[0].0) >= amount;
    } else {
      VerifyFundingTransferIff(ledger, readable, moves[1..], amount);
      forall v: nat | HoldsFirst(ledger, readable, moves[1..], amount, v)
        ensures HoldsFirst(ledger, readable, moves, amount, v + 1)
      {
      }
      forall v: nat | HoldsFirst(ledger, readable, moves, amount, v)
        ensures v > 0 && HoldsFirst(ledger, readable, moves[1..], amount, v - 1)
      {
      }
    }
  }

  lemma {:induction false} SameVerdict(
    ledger: Ledger, ledger': Ledger, readable: set<Key>, moves: seq<(Key, nat)>, amount: nat)
    requires forall v :: 0 <= v < |moves| ==> Balance(ledger, moves[v].0) == Balance(ledger', moves[v].0)
    ensures VerifyFundingTransfer(ledger, readable, moves, amount) <==>
      VerifyFundingTransfer(ledger', readable, moves, amount)
    decreases |moves|
  {
    if moves != [] {
      SameVerdict(ledger, ledger', readable, moves[1..], amount);
    }
  }

  /** Nobody but entry t pays the key, and nobody takes from it. */
  ghost predicate PaidOnlyBy(plan: seq<Payment>, t: nat, k: Key) {
    && (forall s :: 0 <= s < |plan| ==> plan[s].from != k)
    && (forall s, v | 0 <= s < |plan| && s != t && 0 <= v < |plan[s].moves| :: plan[s].moves[v].0 != k)
  }

  /** While entry t has not applied, its recipients hold what they held. */
  lemma {:induction false} UnappliedChangesNothing(
    plan: seq<Payment>, ledger: Ledger, attempts: seq<Payment>, minFee: nat, t: nat, k: Key)
    requires WellFormed(plan) && t < |plan| && PaidOnlyBy(plan, t, k) && Resends(attempts, plan, minFee)
    requires Applied(ledger, attempts, plan[t].from) == 0
    ensures Balance(LandAll(ledger, attempts), k) == Balance(ledger, k)
    decreases |attempts|
  {
    if attempts != [] {
      var n := |attempts| - 1;
      var before, last := attempts[..n], attempts[n];
      assert forall i :: 0 <= i < n ==> before[i] == attempts[i];
      UnappliedChangesNothing(plan, ledger, before, minFee, t, k);
      var s :| 0 <= s < |plan| && last.from == plan[s].from && last.moves == plan[s].moves;
      LandBalance(LandAll(ledger, before), last, k);
      if s != t {
        UnpaidReceivesNothing(last.moves, k);
      }
    }
  }

  /**
   That a passed check means an applied transaction, whatever is resent, holds if and only if the check
   does not pass before anything is sent: the first readable recipient must hold less than the amount.
   */
  lemma PassedMeansAppliedIff(
    plan: seq<Payment>, ledger: Ledger, minFee: nat, readable: set<Key>, t: nat, amount: nat)
    requires WellFormed(plan) && t < |plan|
    requires forall v :: 0 <= v < |plan[t].moves| ==> PaidOnlyBy(plan, t, plan[t].moves[v].0)
    ensures (forall attempts |
               Resends(attempts, plan, minFee)
               && VerifyFundingTransfer(LandAll(ledger, attempts), readable, plan[t].moves, amount) ::
               Applied(ledger, attempts, plan[t].from) > 0)
       <==> !exists v: nat :: HoldsFirst(ledger, readable, plan[t].moves, amount, v)
  {
    VerifyFundingTransferIff(ledger, readable, plan[t].moves, amount);
    forall attempts | Resends(attempts, plan, minFee) && Applied(ledger, attempts, plan[t].from) == 0
      ensures VerifyFundingTransfer(LandAll(ledger, attempts), readable, plan[t].moves, amount)
         <==> VerifyFundingTransfer(ledger, readable, plan[t].moves, amount)
    {
      forall v | 0 <= v < |plan[t].moves|
        ensures Balance(LandAll(ledger, attempts), plan[t].moves[v].0) == Balance(ledger, plan[t].moves[v].0)
      {
        UnappliedChangesNothing(plan, ledger, attempts, minFee, t, plan[t].moves[v].0);
      }
      SameVerdict(LandAll(ledger, attempts), ledger, readable, plan[t].moves, amount);
    }
    assert Resends([], plan, minFee) && LandAll(ledger, []) == ledger && Applied(ledger, [], plan[t].from) == 0;
  }

  /** A key with an old balance passes for a transaction that was never sent. */
  lemma OldBalancePasses(ledger: Ledger, moves: seq<(Key, nat)>, amount: nat)
    requires moves != [] && Balance(ledger, moves[0].0) >= amount
    ensures VerifyFundingTransfer(ledger, {moves[0].0}, moves, amount)
  {
  }
}
