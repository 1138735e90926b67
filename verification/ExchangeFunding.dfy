/**
 The irregular funding tree of the exchange bench (`fund_keys` in `bench-exchange/src/bench.rs`).

 Funded accounts split their balances among at most four unfunded ones per transaction, round after
 round. All balances are whole multiples of `lamports`, called units below; the spare units of the
 funded accounts always equal the number of accounts still unfunded. Transactions are all-or-nothing,
 pay no fee, and each lands exactly once before its round ends.
 */
module ExchangeFunding {
  import opened Collections
  import opened Replays
  import opened Transfers

  const MAX_TRANSFERS_PER_TX: nat := 4
  const FUND_CHUNK_LEN: nat := 8192
  const U64_MAX: nat := 0xffff_ffff_ffff_ffff

  /** The book balances and all that is computed from them are 64-bit integers. */
  type U64 = x: int | 0 <= x <= U64_MAX

  /** An entry of `funded`: a key and the balance the books ascribe to it. */
  datatype Account = Account(key: Key, balance: U64)

  // ---------------------------------------------------------------------------
  // Units
  // ---------------------------------------------------------------------------

  /** The lamports in u units. */
  function Scale(lamports: nat, u: nat): nat {
    if u == 0 then 0 else Scale(lamports, u - 1) + lamports
  }

  lemma {:induction false} ScaleIsProduct(lamports: nat, u: nat)
    ensures Scale(lamports, u) == lamports * u
    decreases u
  {
    if u > 0 {
      ScaleIsProduct(lamports, u - 1);
      assert lamports * u == lamports * (u - 1) + lamports;
    }
  }

  /** Number of recipients of a source with s spare units, and the units each of them gets. */
  function Recipients(s: nat): nat { Min(MAX_TRANSFERS_PER_TX, s) }

  function Share(s: nat): nat
    requires s > 0
  {
    if s < MAX_TRANSFERS_PER_TX then 1 else s / MAX_TRANSFERS_PER_TX
  }

  function Leftover(s: nat): nat
    requires s > 0
  {
    if s < MAX_TRANSFERS_PER_TX then 0 else s % MAX_TRANSFERS_PER_TX
  }

  lemma ShareFacts(s: nat)
    requires s > 0
    ensures Share(s) >= 1 && Share(s) * Recipients(s) + Leftover(s) == s
    ensures Leftover(s) <= 3
    ensures s <= 3 ==> Share(s) == 1
  {
  }

  function Spare(units: seq<nat>): int {
    if units == [] then 0 else Spare(units[..|units| - 1]) + units[|units| - 1] - 1
  }

  ghost predicate Positive(units: seq<nat>) {
    forall i :: 0 <= i < |units| ==> units[i] >= 1
  }

  lemma {:induction false} SpareUpdate(units: seq<nat>, i: nat, v: nat)
    requires i < |units|
    ensures Spare(units[i := v]) == Spare(units) - units[i] + v
    decreases |units|
  {
    var n := |units| - 1;
    if i == n {
      assert units[i := v][..n] == units[..n];
    } else {
      assert units[i := v][..n] == units[..n][i := v];
      SpareUpdate(units[..n], i, v);
    }
  }

  lemma {:induction false} SpareAppend(units: seq<nat>, more: seq<nat>)
    ensures Spare(units + more) == Spare(units) + Spare(more)
    decreases |more|
  {
    if more == [] {
      assert units + more == units;
    } else {
      var n := |more| - 1;
      assert (units + more)[..|units| + n] == units + more[..n];
      SpareAppend(units, more[..n]);
    }
  }

  function Repeat(n: nat, v: nat): seq<nat> {
    seq(n, _ => v)
  }

  lemma {:induction false} SpareRepeat(n: nat, v: nat)
    ensures Spare(Repeat(n, v)) == n * v - n
    decreases n
  {
    if n > 0 {
      assert Repeat(n, v)[..n - 1] == Repeat(n - 1, v);
      SpareRepeat(n - 1, v);
      assert n * v == (n - 1) * v + v;
    }
  }

  lemma {:induction false} SpareAtLeast(units: seq<nat>, i: nat)
    requires Positive(units) && i < |units|
    ensures Spare(units) >= units[i] - 1 >= 0
    decreases |units|
  {
    var n := |units| - 1;
    if i < n {
      SpareAtLeast(units[..n], i);
    } else {
      SpareNonnegative(units[..n]);
    }
  }

  lemma {:induction false} SpareNonnegative(units: seq<nat>)
    requires Positive(units)
    ensures Spare(units) >= 0
    decreases |units|
  {
    if units != [] {
      SpareNonnegative(units[..|units| - 1]);
    }
  }

  // ---------------------------------------------------------------------------
  // The books and the ledger
  // ---------------------------------------------------------------------------

  ghost predicate InUnits(accounts: seq<Account>, units: seq<nat>, lamports: nat) {
    |units| == |accounts| && forall i :: 0 <= i < |units| ==> accounts[i].balance == Scale(lamports, units[i])
  }

  ghost predicate Listed(accounts: seq<Account>, k: Key) {
    exists i :: 0 <= i < |accounts| && accounts[i].key == k
  }

  /**
   The ledger agrees with the books, on top of what each key held before: a listed account has its
   book balance, an unfunded key nothing yet, every other key of `all` exactly `lamports`.
   */
  ghost predicate Books(
    base: Ledger, ledger: Ledger, all: set<Key>, accounts: seq<Account>, notfunded: seq<Key>, lamports: nat)
  {
    && (forall i, j :: 0 <= i < j < |accounts| ==> accounts[i].key != accounts[j].key)
    && (forall i :: 0 <= i < |accounts| ==>
          accounts[i].key in all && accounts[i].key !in notfunded
          && Balance(ledger, accounts[i].key) == Balance(base, accounts[i].key) + accounts[i].balance)
    && (forall k :: k in notfunded ==> k in all && Balance(ledger, k) == Balance(base, k))
    && (forall k :: k in all && k !in notfunded && !Listed(accounts, k)
          ==> Balance(ledger, k) == Balance(base, k) + lamports)
    && (forall k :: k !in all ==> Balance(ledger, k) == Balance(base, k))
  }

  function NewAccounts(keys: seq<Key>, amount: U64): seq<Account> {
    seq(|keys|, i requires 0 <= i < |keys| => Account(keys[i], amount))
  }

  /** The accounts after source i has paid `amount` to each key of a chunk. */
  ghost predicate SplitOff(
    accounts: seq<Account>, i: nat, chunk: seq<Key>, amount: U64, f': Account, after: seq<Account>)
  {
    && i < |accounts| && f'.key == accounts[i].key
    && f'.balance + |chunk| * amount == accounts[i].balance
    && after == accounts[i := f'] + NewAccounts(chunk, amount)
  }

  /** A payment from one listed account to unfunded keys keeps the ledger in step with the books. */
  lemma PaymentKeepsBooks(
    base: Ledger, ledger: Ledger, all: set<Key>, accounts: seq<Account>, notfunded: seq<Key>, lamports: nat,
    i: nat, chunk: seq<Key>, amount: U64, f': Account, after: seq<Account>, landed: Ledger)
    requires Books(base, ledger, all, accounts, notfunded + chunk, lamports)
    requires Distinct(notfunded + chunk)
    requires SplitOff(accounts, i, chunk, amount, f', after)
    requires landed == Land(ledger, Payment(f'.key, Moves(chunk, amount), 0))
    ensures Books(base, landed, all, after, notfunded, lamports)
  {
    var from := f'.key;
    ChunkIsFresh(notfunded, chunk);
    assert from !in chunk;
    forall k ensures Balance(landed, k)
        == if k == from then Balance(ledger, from) - |chunk| * amount
           else Balance(ledger, k) + if k in chunk then amount else 0
    {
      LandEffect(ledger, from, chunk, amount, 0, k);
    }
    forall j | 0 <= j < |after|
      ensures after[j].key in all && after[j].key !in notfunded
      ensures Balance(landed, after[j].key) == Balance(base, after[j].key) + after[j].balance
    {
      if |accounts| <= j {
        assert after[j].key == chunk[j - |accounts|];
        assert chunk[j - |accounts|] in notfunded + chunk;
      }
    }
    forall k | k in all && k !in notfunded && !Listed(after, k)
      ensures Balance(landed, k) == Balance(base, k) + lamports
    {
      NotListedBefore(accounts, i, chunk, amount, f', after, k);
    }
    NewKeysDiffer(accounts, i, chunk, amount, f', after, notfunded);
  }

  lemma NotListedBefore(
    accounts: seq<Account>, i: nat, chunk: seq<Key>, amount: U64, f': Account, after: seq<Account>, k: Key)
    requires SplitOff(accounts, i, chunk, amount, f', after) && !Listed(after, k)
    ensures !Listed(accounts, k) && k !in chunk
  {
    forall j | 0 <= j < |accounts| ensures accounts[j].key != k {
      assert after[j].key == accounts[j].key;
    }
    forall j | 0 <= j < |chunk| ensures chunk[j] != k {
      assert after[|accounts| + j].key == chunk[j];
    }
  }

  lemma NewKeysDiffer(
    accounts: seq<Account>, i: nat, chunk: seq<Key>, amount: U64, f': Account, after: seq<Account>,
    notfunded: seq<Key>)
    requires SplitOff(accounts, i, chunk, amount, f', after)
    requires forall a, b :: 0 <= a < b < |accounts| ==> accounts[a].key != accounts[b].key
    requires forall a :: 0 <= a < |accounts| ==> accounts[a].key !in notfunded + chunk
    requires Distinct(chunk)
    ensures forall a, b :: 0 <= a < b < |after| ==> after[a].key != after[b].key
  {
    forall a, b | 0 <= a < b < |after| ensures after[a].key != after[b].key {
      if |accounts| <= b {
        assert after[b].key == chunk[b - |accounts|];
        assert chunk[b - |accounts|] in notfunded + chunk;
      }
    }
  }

  // ---------------------------------------------------------------------------
  // One round: planning
  // ---------------------------------------------------------------------------

  /** Leftover sources worth at most three spare units, then sources of equal worth. */
  ghost predicate Shape(units: seq<nat>, p: nat, c: nat) {
    && p <= |units| && c >= 2
    && (forall i :: 0 <= i < p ==> 2 <= units[i] <= 4)
    && (forall i :: p <= i < |units| ==> units[i] == c)
  }

  /** The transfers of one payment all carry the same positive amount. */
  ghost predicate Pays(payment: Payment, amount: nat) {
    payment.moves != [] && forall v :: 0 <= v < |payment.moves| ==> payment.moves[v].1 == amount
  }

  lemma {:induction false} DivideExact(b: nat, a: nat)
    requires b > 0
    ensures (b * a) / b == a
  {
    var q := (b * a) / b;
    assert 0 <= b * a - q * b < b;
    assert b * a - q * b == b * (a - q);
    BetweenMultiples(b, a - q);
  }

  lemma BetweenMultiples(b: nat, x: int)
    requires b > 0 && 0 <= b * x < b
    ensures x == 0
  {
  }

  lemma DivideOut(lamports: nat, u: nat)
    requires lamports > 0 && u >= 1
    ensures lamports * u >= lamports
    ensures (lamports * u - lamports) / lamports == u - 1
  {
    var s := u - 1;
    assert lamports * u == lamports * s + lamports;
    DivideExact(lamports, s);
  }

  /** m recipients get equal whole shares of s spare units; the source keeps the remainder and one. */
  lemma ExactShare(lamports: nat, s: nat, m: nat)
    requires m > 0
    ensures m * (s / m * lamports) <= lamports * (s + 1)
    ensures lamports * (s + 1) - m * (s / m * lamports) == lamports * (1 + s % m)
    ensures s / m * lamports == lamports * (s / m)
  {
    var q, r := s / m, s % m;
    assert s == m * q + r;
    calc {
      lamports * (s + 1);
      lamports * (m * q + (1 + r));
      lamports * (m * q) + lamports * (1 + r);
      m * (q * lamports) + lamports * (1 + r);
    }
  }

  lemma ShareFits(m: nat, share: nat, balance: nat)
    requires m > 0 && m * share <= balance
    ensures share <= balance
  {
    assert m * share == (m - 1) * share + share;
  }

  /** How many recipients a balance can serve, and how much each of them gets. */
  method SplitBalance(balance: U64, slots: nat, lamports: U64, ghost u: nat) returns (maxUnits: U64, perUnit: U64)
    requires lamports > 0 && u >= 1 && balance == Scale(lamports, u)
    ensures maxUnits == Min(Min(slots, MAX_TRANSFERS_PER_TX), u - 1)
    ensures maxUnits * perUnit <= balance
    ensures maxUnits > 0 ==> perUnit == Scale(lamports, (u - 1) / maxUnits)
    ensures maxUnits > 0 ==> balance - maxUnits * perUnit == Scale(lamports, 1 + (u - 1) % maxUnits)
  {
    DivideOut(lamports, u);
    ScaleIsProduct(lamports, u);
    var aboveOne: U64 := balance - lamports;
    var spare: U64 := aboveOne / lamports;
    maxUnits := Min(Min(slots, MAX_TRANSFERS_PER_TX), spare);
    if maxUnits == 0 {
      return 0, 0;
    }
    ExactShare(lamports, spare, maxUnits);
    ShareFits(maxUnits, spare / maxUnits * lamports, balance);
    perUnit := spare / maxUnits * lamports;
    ScaleIsProduct(lamports, spare / maxUnits);
    ScaleIsProduct(lamports, 1 + spare % maxUnits);
  }

  lemma RecipientsWithin(u: nat, slots: nat)
    requires u >= 1
    ensures 1 < u <= slots + 1 ==>
      var m := Min(Min(slots, MAX_TRANSFERS_PER_TX), u - 1);
      m == Recipients(u - 1) > 0 && (u - 1) / m == Share(u - 1) && (u - 1) % m == Leftover(u - 1)
  {
  }

  /** The body of the loop over `funded`: one source pays the tail of `notfunded`. */
  method FundFrom(f: Account, notfunded: seq<Key>, lamports: U64, ghost u: nat)
    returns (f': Account, chunk: seq<Key>, perUnit: U64, notfunded': seq<Key>)
    requires lamports > 0 && u >= 1 && f.balance == Scale(lamports, u)
    ensures notfunded == notfunded' + chunk && |chunk| == Min(Min(|notfunded|, MAX_TRANSFERS_PER_TX), u - 1)
    ensures f'.key == f.key && f'.balance + |chunk| * perUnit == f.balance
    ensures 1 < u <= |notfunded| + 1 ==>
      && |chunk| == Recipients(u - 1)
      && perUnit == Scale(lamports, Share(u - 1))
      && f'.balance == Scale(lamports, 1 + Leftover(u - 1))
  {
    var maxUnits;
    maxUnits, perUnit := SplitBalance(f.balance, |notfunded|, lamports, u);
    var paid: U64 := maxUnits * perUnit;
    f' := Account(f.key, f.balance - paid);
    chunk, notfunded' := SplitTail(notfunded, maxUnits);
    RecipientsWithin(u, |notfunded|);
  }

  method SplitTail(notfunded: seq<Key>, maxUnits: nat) returns (chunk: seq<Key>, notfunded': seq<Key>)
    requires maxUnits <= |notfunded|
    ensures notfunded == notfunded' + chunk && |chunk| == maxUnits
  {
    var start := |notfunded| - maxUnits;
    chunk, notfunded' := notfunded[start..], notfunded[..start];
  }

  /** Units of all accounts of a round: whole, at least one each, and the spare ones match the unfunded keys. */
  ghost predicate UnitsOk(lamports: nat, accounts: seq<Account>, units: seq<nat>, notfunded: seq<Key>) {
    InUnits(accounts, units, lamports) && Positive(units) && Spare(units) == |notfunded|
  }

  /**
   Whether funding s keys out of s + 1 units never gives an account one or seven spare units: neither the
   source, nor what it keeps for the next round, nor any of its recipients.
   */
  predicate Replayable(s: nat)
    decreases s
  {
    s == 0 ||
    (ShareFacts(s);
     s != 1 && s != 7 && Replayable(Leftover(s)) && Replayable(Share(s) - 1))
  }

  ghost predicate UnitsReplayable(units: seq<nat>) {
    forall i :: 0 <= i < |units| && units[i] > 0 ==> Replayable(units[i] - 1)
  }

  ghost predicate NoneTwoOrEight(units: seq<nat>, n: nat) {
    forall t :: 0 <= t < n && t < |units| ==> units[t] != 2 && units[t] != 8
  }

  /** In units, a source is replaced by its leftover and one share per recipient is added. */
  ghost predicate UnitsSplitOff(units: seq<nat>, i: nat, m: nat, after: seq<nat>) {
    && i < |units| && units[i] > 1 && m == Recipients(units[i] - 1)
    && after == units[i := 1 + Leftover(units[i] - 1)] + Repeat(m, Share(units[i] - 1))
  }

  lemma UnitsStep(
    lamports: nat, accounts: seq<Account>, units: seq<nat>, notfunded: seq<Key>, chunk: seq<Key>,
    i: nat, f': Account, perUnit: U64, accounts': seq<Account>, units': seq<nat>)
    requires UnitsOk(lamports, accounts, units, notfunded + chunk)
    requires UnitsSplitOff(units, i, |chunk|, units')
    requires SplitOff(accounts, i, chunk, perUnit, f', accounts')
    requires f'.balance == Scale(lamports, 1 + Leftover(units[i] - 1))
    requires perUnit == Scale(lamports, Share(units[i] - 1))
    ensures UnitsOk(lamports, accounts', units', notfunded)
  {
    var share, left := Share(units[i] - 1), 1 + Leftover(units[i] - 1);
    ShareFacts(units[i] - 1);
    SpareUpdate(units, i, left);
    SpareAppend(units[i := left], Repeat(|chunk|, share));
    SpareRepeat(|chunk|, share);
    assert share * |chunk| == |chunk| * share;
  }

  /** The payments made so far and the keys left over spell out the keys the round began with. */
  ghost predicate TrailOk(ledger: Ledger, before: seq<Key>, notfunded: seq<Key>, toFund: seq<Payment>) {
    notfunded + PaidKeys(toFund) == before && Affordable(ledger, toFund)
  }

  lemma TrailStep(ledger: Ledger, before: seq<Key>, notfunded: seq<Key>, chunk: seq<Key>, toFund: seq<Payment>,
                  from: Key, perUnit: nat, toFund': seq<Payment>)
    requires TrailOk(ledger, before, notfunded + chunk, toFund) && Distinct(chunk)
    requires |chunk| * perUnit <= Balance(LandAll(ledger, toFund), from)
    requires toFund' == toFund + [Payment(from, Moves(chunk, perUnit), 0)]
    ensures TrailOk(ledger, before, notfunded, toFund')
    ensures LandAll(ledger, toFund') == Land(LandAll(ledger, toFund), Payment(from, Moves(chunk, perUnit), 0))
  {
    OnePaymentMore(toFund, Payment(from, Moves(chunk, perUnit), 0), chunk);
    MovesTotals(chunk, perUnit, from);
    Associate(notfunded, chunk, PaidKeys(toFund));
    assert toFund'[..|toFund'| - 1] == toFund;
  }

  /** What the round has made of the sources it has treated, and of the new accounts after them. */
  ghost predicate SplitOk(
    funded: seq<Account>, units: seq<nat>, c: nat, lamports: nat, i: nat,
    units': seq<nat>, toFund: seq<Payment>)
  {
    && |units| == |funded| <= |units'| && i <= |funded| && |toFund| == i && c >= 2
    && (forall t :: 0 <= t < |units| ==> units[t] > 1)
    && (forall t :: 0 <= t < i ==> units'[t] <= 4)
    && (forall t :: i <= t < |units| ==> units'[t] == units[t])
    && (forall t :: |units| <= t < |units'| ==> units'[t] == 1 || units'[t] == Share(c - 1))
    && (forall t :: 0 <= t < i ==>
          toFund[t].from == funded[t].key && toFund[t].fee == 0 && |toFund[t].moves| == Recipients(units[t] - 1)
          && Pays(toFund[t], Scale(lamports, Share(units[t] - 1))))
  }

  lemma SplitStep(
    funded: seq<Account>, units: seq<nat>, p: nat, c: nat, lamports: nat, i: nat,
    units': seq<nat>, toFund: seq<Payment>, chunk: seq<Key>, perUnit: nat, units'': seq<nat>, toFund': seq<Payment>)
    requires SplitOk(funded, units, c, lamports, i, units', toFund) && Shape(units, p, c) && i < |funded|
    requires UnitsSplitOff(units', i, |chunk|, units'')
    requires perUnit == Scale(lamports, Share(units[i] - 1))
    requires toFund' == toFund + [Payment(funded[i].key, Moves(chunk, perUnit), 0)]
    ensures SplitOk(funded, units, c, lamports, i + 1, units'', toFund')
  {
    ShareFacts(units[i] - 1);
    assert Share(units[i] - 1) == 1 || units[i] == c;
    assert Pays(toFund'[i], perUnit);
  }

  /** The units after the first i sources have been treated. */
  ghost function SplitUnits(units: seq<nat>, i: nat): seq<nat> {
    if i == 0 then units
    else
      var before := SplitUnits(units, i - 1);
      if i <= |before| && before[i - 1] > 1 then
        var s := before[i - 1] - 1;
        before[i - 1 := 1 + Leftover(s)] + Repeat(Recipients(s), Share(s))
      else before
  }

  /** The units of the accounts that can still pay. */
  ghost function KeptUnits(units: seq<nat>): seq<nat> {
    if units == [] then []
    else KeptUnits(units[..|units| - 1]) + if units[|units| - 1] >= 2 then [units[|units| - 1]] else []
  }

  /** What a round makes of the units of its sources. */
  ghost function NextUnits(units: seq<nat>): seq<nat> {
    KeptUnits(SplitUnits(units, |units|))
  }

  /** What stays fixed during one funding. */
  datatype Funding = Funding(base: Ledger, all: set<Key>, dests: seq<Key>, lamports: nat, total: nat)

  /** Where a round begins: the books in units, leftovers before p and sources of c units after them. */
  datatype RoundStart = RoundStart(
    ledger: Ledger, funded: seq<Account>, keys: seq<Key>, units: seq<nat>, p: nat, c: nat)

  /** All that holds while a round is under way, after the first i sources. */
  ghost predicate RoundOk(
    fund: Funding, from: RoundStart, i: nat,
    accounts: seq<Account>, notfunded: seq<Key>, toFund: seq<Payment>, units: seq<nat>)
  {
    && i <= |from.funded| <= |accounts| && (forall t :: i <= t < |from.funded| ==> accounts[t] == from.funded[t])
    && Distinct(notfunded)
    && UnitsOk(fund.lamports, accounts, units, notfunded)
    && Books(fund.base, LandAll(from.ledger, toFund), fund.all, accounts, notfunded, fund.lamports)
    && TrailOk(from.ledger, from.keys, notfunded, toFund)
    && SplitOk(from.funded, from.units, from.c, fund.lamports, i, units, toFund)
    && units == SplitUnits(from.units, i)
  }

  /** The loop body for the source at index i. */
  method TreatSource(
    i: nat, accounts: seq<Account>, notfunded: seq<Key>, toFund: seq<Payment>, lamports: U64,
    ghost fund: Funding, ghost from: RoundStart, ghost units: seq<nat>)
    returns (accounts': seq<Account>, notfunded': seq<Key>, toFund': seq<Payment>, ghost units': seq<nat>)
    requires lamports > 0 && lamports == fund.lamports && i < |from.funded| && Shape(from.units, from.p, from.c)
    requires RoundOk(fund, from, i, accounts, notfunded, toFund, units)
    ensures RoundOk(fund, from, i + 1, accounts', notfunded', toFund', units')
  {
    SpareAtLeast(units, i);
    var f', chunk, perUnit, rest := FundFrom(accounts[i], notfunded, lamports, from.units[i]);
    toFund' := toFund + [Payment(f'.key, Moves(chunk, perUnit), 0)];
    accounts' := accounts[i := f'] + NewAccounts(chunk, perUnit);
    units' := units[i := 1 + Leftover(units[i] - 1)] + Repeat(|chunk|, Share(units[i] - 1));
    notfunded' := rest;
    SourceTreated(fund, from, i, accounts, rest, chunk, toFund, units, f', perUnit, accounts', toFund', units');
  }

  lemma SourceTreated(
    fund: Funding, from: RoundStart, i: nat, accounts: seq<Account>, rest: seq<Key>, chunk: seq<Key>,
    toFund: seq<Payment>, units: seq<nat>, f': Account, perUnit: U64,
    accounts': seq<Account>, toFund': seq<Payment>, units': seq<nat>)
    requires RoundOk(fund, from, i, accounts, rest + chunk, toFund, units) && Shape(from.units, from.p, from.c)
    requires i < |from.funded| && perUnit == Scale(fund.lamports, Share(units[i] - 1))
    requires SplitOff(accounts, i, chunk, perUnit, f', accounts')
    requires f'.balance == Scale(fund.lamports, 1 + Leftover(units[i] - 1))
    requires UnitsSplitOff(units, i, |chunk|, units')
    requires toFund' == toFund + [Payment(f'.key, Moves(chunk, perUnit), 0)]
    ensures RoundOk(fund, from, i + 1, accounts', rest, toFund', units')
  {
    ChunkIsFresh(rest, chunk);
    TrailStep(from.ledger, from.keys, rest, chunk, toFund, f'.key, perUnit, toFund');
    PaymentKeepsBooks(fund.base, LandAll(from.ledger, toFund), fund.all, accounts, rest, fund.lamports, i, chunk, perUnit,
                      f', accounts', LandAll(from.ledger, toFund'));
    UnitsStep(fund.lamports, accounts, units, rest, chunk, i, f', perUnit, accounts', units');
    SplitStep(from.funded, from.units, from.p, from.c, fund.lamports, i, units, toFund, chunk, perUnit, units', toFund');
    SplitNext(from.units, i, units, |chunk|, units');
  }

  lemma SplitNext(start: seq<nat>, i: nat, units: seq<nat>, m: nat, units': seq<nat>)
    requires units == SplitUnits(start, i) && UnitsSplitOff(units, i, m, units')
    ensures units' == SplitUnits(start, i + 1)
  {
  }

  lemma RoundBegins(fund: Funding, from: RoundStart)
    requires Distinct(from.keys) && Shape(from.units, from.p, from.c)
    requires UnitsOk(fund.lamports, from.funded, from.units, from.keys)
    requires Books(fund.base, from.ledger, fund.all, from.funded, from.keys, fund.lamports)
    ensures RoundOk(fund, from, 0, from.funded, from.keys, [], from.units)
  {
    assert from.keys + [] == from.keys;
  }

  /** One pass over the funded accounts. New accounts are kept behind the sources they come from. */
  method Round(funded: seq<Account>, notfunded: seq<Key>, lamports: U64, ghost fund: Funding, ghost from: RoundStart)
    returns (accounts: seq<Account>, notfunded': seq<Key>, toFund: seq<Payment>, ghost units: seq<nat>)
    requires lamports > 0 && lamports == fund.lamports && Distinct(notfunded)
    requires funded == from.funded && notfunded == from.keys
    requires UnitsOk(lamports, funded, from.units, notfunded) && Shape(from.units, from.p, from.c)
    requires Books(fund.base, from.ledger, fund.all, funded, notfunded, lamports)
    ensures RoundOk(fund, from, |funded|, accounts, notfunded', toFund, units)
  {
    accounts, notfunded', toFund, units := funded, notfunded, [], from.units;
    RoundBegins(fund, from);
    for i := 0 to |funded|
      invariant RoundOk(fund, from, i, accounts, notfunded', toFund, units)
    {
      accounts, notfunded', toFund, units := TreatSource(i, accounts, notfunded', toFund, lamports, fund, from, units);
    }
  }

  // ---------------------------------------------------------------------------
  // One round: landing and verifying
  // ---------------------------------------------------------------------------

  /** Amounts never decrease along a round, so the first one of a chunk bounds all that follow. */
  ghost predicate Nondecreasing(payments: seq<Payment>) {
    forall s, t, v, w | 0 <= s <= t < |payments| && 0 <= v < |payments[s].moves| && 0 <= w < |payments[t].moves|
      :: payments[s].moves[v].1 <= payments[t].moves[w].1
  }

  lemma {:induction false} ScaleMonotone(lamports: nat, u: nat, w: nat)
    requires u <= w
    ensures Scale(lamports, u) <= Scale(lamports, w)
    decreases w
  {
    if u < w {
      ScaleMonotone(lamports, u, w - 1);
    }
  }

  /** Leftovers pay one unit, the equal sources after them all pay the same. */
  lemma RoundAmounts(funded: seq<Account>, units: seq<nat>, p: nat, c: nat, lamports: nat,
                     units': seq<nat>, toFund: seq<Payment>)
    requires SplitOk(funded, units, c, lamports, |funded|, units', toFund) && Shape(units, p, c)
    ensures Nondecreasing(toFund)
  {
    forall s, t, v, w | 0 <= s <= t < |toFund| && 0 <= v < |toFund[s].moves| && 0 <= w < |toFund[t].moves|
      ensures toFund[s].moves[v].1 <= toFund[t].moves[w].1
    {
      ShareFacts(units[s] - 1);
      ShareFacts(units[t] - 1);
      ScaleMonotone(lamports, Share(units[s] - 1), Share(units[t] - 1));
    }
  }

  lemma LandNeverTakes(ledger: Ledger, payment: Payment, k: Key)
    requires payment.from != k
    ensures Balance(Land(ledger, payment), k) >= Balance(ledger, k)
  {
    var funds, cost := Balance(ledger, payment.from), payment.fee + Paid(payment.moves);
    if cost <= funds {
      CreditAdds(ledger[payment.from := funds - cost], payment.moves, k);
    }
  }

  lemma {:induction false} ReceivedAtLeast(moves: seq<(Key, nat)>, v: nat)
    requires v < |moves|
    ensures Received(moves, moves[v].0) >= moves[v].1
    decreases |moves|
  {
    var before := moves[..|moves| - 1];
    if v < |before| {
      ReceivedAtLeast(before, v);
      assert before[v] == moves[v];
    }
  }

  /** Once its payment has landed, a recipient holds the amount for the rest of the round. */
  lemma {:induction false} RecipientKeeps(ledger: Ledger, payments: seq<Payment>, t: nat, v: nat)
    requires Affordable(ledger, payments) && PayersUnpaid(payments)
    requires t < |payments| && v < |payments[t].moves|
    ensures Balance(LandAll(ledger, payments), payments[t].moves[v].0) >= payments[t].moves[v].1
    decreases |payments|
  {
    var before, last := payments[..|payments| - 1], payments[|payments| - 1];
    var k := payments[t].moves[v].0;
    if t < |before| {
      assert before[t] == payments[t];
      RecipientKeeps(ledger, before, t, v);
      LandNeverTakes(LandAll(ledger, before), last, k);
    } else {
      var held := LandAll(ledger, before);
      CreditAdds(held[last.from := Balance(held, last.from) - last.fee - Paid(last.moves)], last.moves, k);
      ReceivedAtLeast(last.moves, v);
    }
  }

  /** Some recipient of the transaction is seen with at least `amount`. */
  predicate VerifyFundingTransfer(ledger: Ledger, payment: Payment, amount: nat) {
    exists v :: 0 <= v < |payment.moves| && Balance(ledger, payment.moves[v].0) >= amount
  }

  /** All transactions of the chunk [start, end) land. */
  method LandChunk(ledger: Ledger, toFund: seq<Payment>, start: nat, end: nat, ghost first: Ledger)
    returns (ledger': Ledger)
    requires start <= end <= |toFund| && ledger == LandAll(first, toFund[..start])
    ensures ledger' == LandAll(first, toFund[..end])
  {
    ledger' := ledger;
    for t := start to end
      invariant ledger' == LandAll(first, toFund[..t])
    {
      assert toFund[..t + 1][..t] == toFund[..t];
      ledger' := Land(ledger', toFund[t]);
    }
  }

  /** Every transaction of the chunk [start, end) passes, with the first amount of the chunk as threshold. */
  ghost predicate ChunkVerified(ledger: Ledger, toFund: seq<Payment>, start: nat, end: nat)
    requires start < end <= |toFund| && toFund[start].moves != []
  {
    forall t :: start <= t < end ==> SomeRecipientHolds(ledger, toFund[t], toFund[start].moves[0].1)
  }

  ghost predicate SomeRecipientHolds(ledger: Ledger, payment: Payment, amount: nat) {
    exists move :: move in payment.moves && Balance(ledger, move.0) >= amount
  }

  /** The balance check passes exactly when some recipient holds the amount. */
  lemma VerifyFundingTransferIff(ledger: Ledger, payment: Payment, amount: nat)
    ensures VerifyFundingTransfer(ledger, payment, amount) <==> SomeRecipientHolds(ledger, payment, amount)
  {
  }

  lemma ChunkPasses(first: Ledger, toFund: seq<Payment>, start: nat, end: nat)
    requires start < end <= |toFund| && Affordable(first, toFund[..end])
    requires PayersUnpaid(toFund) && Nondecreasing(toFund)
    requires forall t :: 0 <= t < |toFund| ==> toFund[t].moves != []
    ensures ChunkVerified(LandAll(first, toFund[..end]), toFund, start, end)
  {
    forall t | start <= t < end
      ensures SomeRecipientHolds(LandAll(first, toFund[..end]), toFund[t], toFund[start].moves[0].1)
    {
      RecipientKeeps(first, toFund[..end], t, 0);
      assert toFund[..end][t] == toFund[t] && toFund[t].moves[0] in toFund[t].moves;
    }
  }

  /**
   What is left of the chunk [start, end) once the verified transactions have been dropped: exactly those
   whose success is not reported yet, since the balances are as they should be.
   */
  method RetainUnverified(
    ledger: Ledger, toFund: seq<Payment>, start: nat, end: nat, reported: nat -> bool, ghost first: Ledger)
    returns (outstanding: seq<nat>)
    requires start < end <= |toFund| && ledger == LandAll(first, toFund[..end])
    requires Affordable(first, toFund[..end]) && PayersUnpaid(toFund) && Nondecreasing(toFund)
    requires forall t :: 0 <= t < |toFund| ==> toFund[t].moves != []
    ensures ChunkVerified(LandAll(first, toFund[..end]), toFund, start, end)
    ensures forall t :: t in outstanding <==> start <= t < end && !reported(t)
  {
    var amount := toFund[start].moves[0].1;
    outstanding := [];
    ChunkPasses(first, toFund, start, end);
    for t := start to end
      invariant forall u :: u in outstanding <==> start <= u < t && !reported(u)
    {
      VerifyFundingTransferIff(ledger, toFund[t], amount);
      if !(reported(t) && VerifyFundingTransfer(ledger, toFund[t], amount)) {
        outstanding := outstanding + [t];
      }
    }
  }

  function ChunkStart(length: nat, q: nat): nat {
    Min(q * FUND_CHUNK_LEN, length)
  }

  /** Once it has landed, chunk number q passes. */
  ghost predicate VerifiedAt(first: Ledger, toFund: seq<Payment>, q: nat) {
    var start, end := ChunkStart(|toFund|, q), ChunkStart(|toFund|, q + 1);
    start < end ==> toFund[start].moves != [] && ChunkVerified(LandAll(first, toFund[..end]), toFund, start, end)
  }

  /** What landing and verifying a round relies on. */
  ghost predicate Landable(ledger: Ledger, toFund: seq<Payment>) {
    && Affordable(ledger, toFund) && PayersUnpaid(toFund) && Nondecreasing(toFund)
    && forall t :: 0 <= t < |toFund| ==> toFund[t].moves != []
  }

  lemma ChunksPass(first: Ledger, toFund: seq<Payment>, q: nat)
    requires Landable(first, toFund)
    ensures VerifiedAt(first, toFund, q)
  {
    var start, end := ChunkStart(|toFund|, q), ChunkStart(|toFund|, q + 1);
    if start < end {
      PrefixAffordable(first, toFund, end);
      ChunkPasses(first, toFund, start, end);
    }
  }

  /** Lands one chunk and waits until the success of each of its transactions has been reported. */
  method LandAndVerify(ledger: Ledger, toFund: seq<Payment>, start: nat, ghost first: Ledger)
    returns (ledger': Ledger, end: nat)
    requires Landable(first, toFund) && start < |toFund| && ledger == LandAll(first, toFund[..start])
    ensures start < end == Min(start + FUND_CHUNK_LEN, |toFund|) && ledger' == LandAll(first, toFund[..end])
  {
    end := Min(start + FUND_CHUNK_LEN, |toFund|);
    ledger' := LandChunk(ledger, toFund, start, end, first);
    PrefixAffordable(first, toFund, end);
    var outstanding := RetainUnverified(ledger', toFund, start, end, _ => true, first);
    assert forall t :: t !in outstanding;
  }

  /** Lands the payments chunk by chunk; every transaction passes the check of its chunk. */
  method LandRound(ledger: Ledger, toFund: seq<Payment>) returns (ledger': Ledger)
    requires Landable(ledger, toFund)
    ensures ledger' == LandAll(ledger, toFund) && forall q: nat :: VerifiedAt(ledger, toFund, q)
  {
    ledger' := ledger;
    var start := 0;
    while start < |toFund|
      invariant start <= |toFund| && ledger' == LandAll(ledger, toFund[..start])
    {
      ledger', start := LandAndVerify(ledger', toFund, start, ledger);
    }
    assert toFund[..|toFund|] == toFund;
    forall q: nat ensures VerifiedAt(ledger, toFund, q) {
      ChunksPass(ledger, toFund, q);
    }
  }

  // ---------------------------------------------------------------------------
  // One round: retaining the accounts that can still pay
  // ---------------------------------------------------------------------------

  lemma DropKeepsBooks(
    base: Ledger, ledger: Ledger, all: set<Key>, kept: seq<Account>, a: Account, rest: seq<Account>,
    notfunded: seq<Key>, lamports: nat)
    requires Books(base, ledger, all, kept + [a] + rest, notfunded, lamports) && a.balance == lamports
    ensures Books(base, ledger, all, kept + rest, notfunded, lamports)
  {
    var before, after := kept + [a] + rest, kept + rest;
    assert forall j :: 0 <= j < |kept| ==> after[j] == before[j];
    assert forall j :: |kept| <= j < |after| ==> after[j] == before[j + 1];
    assert before[|kept|] == a;
    forall k | k in all && k !in notfunded && !Listed(after, k)
      ensures Balance(ledger, k) == Balance(base, k) + lamports
    {
      if k != a.key {
        forall j | 0 <= j < |before| ensures before[j].key != k {
          assert j < |kept| ==> before[j] == after[j];
          assert j > |kept| ==> before[j] == after[j - 1];
        }
      }
    }
  }

  /** The accounts kept so far, in units: at least one spare each, still leftovers first. */
  ghost predicate KeptOk(units: seq<nat>, p: nat, share: nat) {
    && p <= |units|
    && (forall t :: 0 <= t < |units| ==> units[t] >= 2)
    && (forall t :: 0 <= t < p ==> units[t] <= 4)
    && (forall t :: p <= t < |units| ==> units[t] == share)
  }

  /** The kept accounts carry all the spare units seen so far. */
  ghost predicate RetainOk(
    lamports: nat, units: seq<nat>, n: nat, share: nat, i: nat, funded: seq<Account>, units': seq<nat>, p: nat)
  {
    && i <= |units| && InUnits(funded, units', lamports) && KeptOk(units', p, share)
    && (i <= n ==> p == |units'|) && Spare(units') == Spare(units[..i])
    && units' == KeptUnits(units[..i])
  }

  lemma RetainDrop(
    lamports: nat, units: seq<nat>, n: nat, share: nat, i: nat, funded: seq<Account>, units': seq<nat>, p: nat)
    requires RetainOk(lamports, units, n, share, i, funded, units', p) && i < |units| && units[i] == 1
    ensures RetainOk(lamports, units, n, share, i + 1, funded, units', p)
  {
    UnitsSnoc(units[..i], units[i]);
    assert units[..i + 1] == units[..i] + [units[i]];
  }

  lemma RetainKeep(
    lamports: nat, units: seq<nat>, n: nat, share: nat, i: nat, funded: seq<Account>, units': seq<nat>, p: nat,
    a: Account, p': nat)
    requires RetainOk(lamports, units, n, share, i, funded, units', p) && i < |units|
    requires a.balance == Scale(lamports, units[i]) && units[i] >= 2
    requires if i < n then units[i] <= 4 && p' == p + 1 else units[i] == share && p' == p
    ensures RetainOk(lamports, units, n, share, i + 1, funded + [a], units' + [units[i]], p')
  {
    UnitsSnoc(units[..i], units[i]);
    assert units[..i + 1] == units[..i] + [units[i]];
    UnitsSnoc(units', units[i]);
    KeepUnits(units', p, share, units[i], p');
    KeepAccount(funded, units', lamports, a, units[i]);
  }

  lemma KeepAccount(accounts: seq<Account>, units: seq<nat>, lamports: nat, a: Account, u: nat)
    requires InUnits(accounts, units, lamports) && a.balance == Scale(lamports, u)
    ensures InUnits(accounts + [a], units + [u], lamports)
  {
  }

  lemma KeepUnits(units: seq<nat>, p: nat, share: nat, u: nat, p': nat)
    requires KeptOk(units, p, share) && u >= 2
    requires (p' == p + 1 && p == |units| && u <= 4) || (p' == p && u == share)
    ensures KeptOk(units + [u], p', share)
  {
  }

  lemma UnitsSnoc(units: seq<nat>, u: nat)
    ensures Spare(units + [u]) == Spare(units) + u - 1
    ensures KeptUnits(units + [u]) == KeptUnits(units) + if u >= 2 then [u] else []
  {
    assert (units + [u])[..|units|] == units;
  }

  /** The books still hold when the next account is kept, and also when it is dropped with one unit. */
  lemma NextAccount(
    base: Ledger, ledger: Ledger, all: set<Key>, kept: seq<Account>, accounts: seq<Account>, i: nat,
    notfunded: seq<Key>, lamports: nat)
    requires i < |accounts| && Books(base, ledger, all, kept + accounts[i..], notfunded, lamports)
    ensures Books(base, ledger, all, (kept + [accounts[i]]) + accounts[i + 1..], notfunded, lamports)
    ensures accounts[i].balance == lamports ==> Books(base, ledger, all, kept + accounts[i + 1..], notfunded, lamports)
    ensures Balance(ledger, accounts[i].key) >= accounts[i].balance
  {
    assert kept + accounts[i..] == (kept + [accounts[i]]) + accounts[i + 1..];
    assert (kept + accounts[i..])[|kept|] == accounts[i];
    if accounts[i].balance == lamports {
      DropKeepsBooks(base, ledger, all, kept, accounts[i], accounts[i + 1..], notfunded, lamports);
    }
  }

  /** The test of `retain` on one account. */
  method RetainOne(
    accounts: seq<Account>, i: nat, ledger: Ledger, lamports: nat, funded: seq<Account>,
    ghost units: seq<nat>, ghost n: nat, ghost share: nat, ghost kept: seq<nat>, ghost p: nat,
    ghost base: Ledger, ghost all: set<Key>, ghost notfunded: seq<Key>)
    returns (funded': seq<Account>, ghost kept': seq<nat>, ghost p': nat)
    requires lamports > 0 && i < |accounts| && InUnits(accounts, units, lamports) && units[i] >= 1
    requires RetainOk(lamports, units, n, share, i, funded, kept, p)
    requires if i < n then units[i] <= 4 else units[i] == 1 || units[i] == share
    requires Books(base, ledger, all, funded + accounts[i..], notfunded, lamports)
    ensures RetainOk(lamports, units, n, share, i + 1, funded', kept', p')
    ensures Books(base, ledger, all, funded' + accounts[i + 1..], notfunded, lamports)
  {
    var a := accounts[i];
    NextAccount(base, ledger, all, funded, accounts, i, notfunded, lamports);
    AboveOneUnit(lamports, units[i]);
    if Balance(ledger, a.key) > lamports && a.balance > lamports {
      p' := if i < n then p + 1 else p;
      RetainKeep(lamports, units, n, share, i, funded, kept, p, a, p');
      funded', kept' := funded + [a], kept + [units[i]];
    } else {
      RetainDrop(lamports, units, n, share, i, funded, kept, p);
      funded', kept', p' := funded, kept, p;
    }
  }

  method Retain(
    accounts: seq<Account>, ledger: Ledger, lamports: nat, ghost units: seq<nat>, ghost n: nat, ghost share: nat,
    ghost base: Ledger, ghost all: set<Key>, ghost notfunded: seq<Key>)
    returns (funded: seq<Account>, ghost units': seq<nat>, ghost p: nat)
    requires lamports > 0
    requires UnitsOk(lamports, accounts, units, notfunded)
    requires Books(base, ledger, all, accounts, notfunded, lamports)
    requires n <= |units|
    requires forall t :: 0 <= t < n ==> units[t] <= 4
    requires forall t :: n <= t < |units| ==> units[t] == 1 || units[t] == share
    ensures UnitsOk(lamports, funded, units', notfunded) && KeptOk(units', p, share)
    ensures Books(base, ledger, all, funded, notfunded, lamports)
    ensures units' == KeptUnits(units)
  {
    funded, units', p := [], [], 0;
    RetainStarts(accounts, ledger, lamports, units, n, share, base, all, notfunded);
    for i := 0 to |accounts|
      invariant RetainOk(lamports, units, n, share, i, funded, units', p)
      invariant Books(base, ledger, all, funded + accounts[i..], notfunded, lamports)
    {
      funded, units', p := RetainOne(
        accounts, i, ledger, lamports, funded, units, n, share, units', p, base, all, notfunded);
    }
    RetainDone(lamports, units, n, share, funded, units', p, notfunded, accounts);
  }

  lemma RetainStarts(
    accounts: seq<Account>, ledger: Ledger, lamports: nat, units: seq<nat>, n: nat, share: nat,
    base: Ledger, all: set<Key>, notfunded: seq<Key>)
    requires Books(base, ledger, all, accounts, notfunded, lamports)
    ensures RetainOk(lamports, units, n, share, 0, [], [], 0)
    ensures Books(base, ledger, all, [] + accounts[0..], notfunded, lamports)
  {
    assert [] + accounts[0..] == accounts;
  }

  lemma RetainDone(
    lamports: nat, units: seq<nat>, n: nat, share: nat, funded: seq<Account>, units': seq<nat>, p: nat,
    notfunded: seq<Key>, accounts: seq<Account>)
    requires RetainOk(lamports, units, n, share, |units|, funded, units', p) && Spare(units) == |notfunded|
    ensures UnitsOk(lamports, funded, units', notfunded) && units' == KeptUnits(units)
    ensures funded + accounts[|accounts|..] == funded
  {
    assert units[..|units|] == units;
  }

  lemma AboveOneUnit(lamports: nat, u: nat)
    requires lamports > 0 && u >= 1
    ensures Scale(lamports, u) > lamports <==> u >= 2
    ensures u == 1 ==> Scale(lamports, u) == lamports
  {
    assert Scale(lamports, 1) == Scale(lamports, 0) + lamports;
    if u >= 2 {
      ScaleMonotone(lamports, 1, u - 1);
    }
  }

  // ---------------------------------------------------------------------------
  // All rounds
  // ---------------------------------------------------------------------------

  /** What a finished round says about its payments. */
  lemma RoundPayments(
    fund: Funding, from: RoundStart, accounts: seq<Account>, notfunded: seq<Key>, toFund: seq<Payment>, units: seq<nat>)
    requires RoundOk(fund, from, |from.funded|, accounts, notfunded, toFund, units)
    requires Books(fund.base, from.ledger, fund.all, from.funded, from.keys, fund.lamports)
    requires Shape(from.units, from.p, from.c) && from.funded != []
    ensures PayersUnpaid(toFund) && Nondecreasing(toFund)
    ensures forall t :: 0 <= t < |toFund| ==> toFund[t].moves != []
    ensures |notfunded| < |from.keys|
  {
    RoundAmounts(from.funded, from.units, from.p, from.c, fund.lamports, units, toFund);
    forall s, t, v | 0 <= s < |toFund| && 0 <= t < |toFund| && 0 <= v < |toFund[t].moves|
      ensures toFund[s].from != toFund[t].moves[v].0
    {
      PaidKeysMember(toFund, t, v);
      assert toFund[t].moves[v].0 in notfunded + PaidKeys(toFund);
      assert from.funded[s].key !in from.keys;
    }
    assert toFund[0].moves != [];
    PaidKeysMember(toFund, 0, 0);
  }

  /** Every book balance lies between one share and the total. */
  ghost predicate WithinTotal(accounts: seq<Account>, lamports: nat, total: nat) {
    forall i :: 0 <= i < |accounts| ==> lamports <= accounts[i].balance <= total
  }

  lemma BalancesWithinTotal(lamports: nat, accounts: seq<Account>, units: seq<nat>, notfunded: seq<Key>, n: nat)
    requires UnitsOk(lamports, accounts, units, notfunded) && |notfunded| <= n
    ensures WithinTotal(accounts, lamports, Scale(lamports, n + 1))
  {
    forall i | 0 <= i < |accounts| ensures lamports <= accounts[i].balance <= Scale(lamports, n + 1) {
      SpareAtLeast(units, i);
      ScaleMonotone(lamports, 1, units[i]);
      ScaleMonotone(lamports, units[i], n + 1);
      assert Scale(lamports, 1) == Scale(lamports, 0) + lamports;
    }
  }

  lemma SettledWhenDone(base: Ledger, ledger: Ledger, all: set<Key>, accounts: seq<Account>, units: seq<nat>,
                        lamports: nat, k: Key)
    requires UnitsOk(lamports, accounts, units, []) && Books(base, ledger, all, accounts, [], lamports)
    requires k in all && lamports > 0
    ensures Balance(ledger, k) == Balance(base, k) + lamports
  {
    if Listed(accounts, k) {
      var i :| 0 <= i < |accounts| && accounts[i].key == k;
      SpareAtLeast(units, i);
      AboveOneUnit(lamports, units[i]);
    }
  }

  /** Everything that holds between rounds. */
  ghost predicate BetweenRounds(fund: Funding, from: RoundStart, payments: seq<Payment>) {
    && UnitsOk(fund.lamports, from.funded, from.units, from.keys)
    && (from.keys != [] ==> Shape(from.units, from.p, from.c))
    && Books(fund.base, from.ledger, fund.all, from.funded, from.keys, fund.lamports)
    && from.keys + PaidKeys(payments) == fund.dests
    && WithinTotal(from.funded, fund.lamports, fund.total)
  }

  /** The body of the outer loop: plan, land, verify, and keep the accounts that can still pay. */
  method FundRound(
    ledger: Ledger, funded: seq<Account>, notfunded: seq<Key>, lamports: U64,
    ghost fund: Funding, ghost from: RoundStart, ghost payments: seq<Payment>)
    returns (ledger': Ledger, funded': seq<Account>, notfunded': seq<Key>, toFund: seq<Payment>, ghost from': RoundStart)
    requires lamports > 0 && lamports == fund.lamports && Distinct(fund.dests) && notfunded != []
    requires fund.total == Scale(lamports, |fund.dests| + 1)
    requires ledger == from.ledger && funded == from.funded && notfunded == from.keys
    requires BetweenRounds(fund, from, payments)
    ensures ledger' == from'.ledger && funded' == from'.funded && notfunded' == from'.keys
    ensures BetweenRounds(fund, from', payments + toFund)
    ensures |notfunded'| < |notfunded| && Nondecreasing(toFund)
    ensures RoundLands(fund, from, toFund) && ledger' == LandAll(ledger, toFund)
    ensures from'.units == NextUnits(from.units) && notfunded' + PaidKeys(toFund) == notfunded
  {
    NeverOutOfFunds(fund, from, payments);
    PrefixDistinct(notfunded, PaidKeys(payments));
    var accounts, rest;
    ghost var spent;
    ledger', accounts, rest, toFund, spent := PlanAndLand(ledger, funded, notfunded, lamports, fund, from);
    PaidKeysAppend(payments, toFund);
    Associate(rest, PaidKeys(toFund), PaidKeys(payments));
    notfunded' := rest;
    ghost var units, p;
    funded', units, p := Retain(
      accounts, ledger', lamports, spent, |funded|, Share(from.c - 1), fund.base, fund.all, rest);
    from' := RoundStart(ledger', funded', rest, units, p, if Share(from.c - 1) >= 2 then Share(from.c - 1) else 2);
    BalancesWithinTotal(lamports, funded', units, rest, |fund.dests|);
  }

  /** The first half of a round: the sources pay, and the accounts are those of the books. */
  method PlanAndLand(
    ledger: Ledger, funded: seq<Account>, notfunded: seq<Key>, lamports: U64, ghost fund: Funding, ghost from: RoundStart)
    returns (ledger': Ledger, accounts: seq<Account>, rest: seq<Key>, toFund: seq<Payment>, ghost units: seq<nat>)
    requires lamports > 0 && lamports == fund.lamports && Distinct(notfunded) && funded != []
    requires ledger == from.ledger && funded == from.funded && notfunded == from.keys
    requires UnitsOk(lamports, funded, from.units, notfunded) && Shape(from.units, from.p, from.c)
    requires Books(fund.base, from.ledger, fund.all, funded, notfunded, lamports)
    ensures rest + PaidKeys(toFund) == notfunded && |rest| < |notfunded| && Nondecreasing(toFund)
    ensures UnitsOk(lamports, accounts, units, rest) && Books(fund.base, ledger', fund.all, accounts, rest, lamports)
    ensures UnitsPlanned(from, units) && RoundLands(fund, from, toFund) && ledger' == LandAll(ledger, toFund)
  {
    accounts, rest, toFund, units := PlanRound(funded, notfunded, lamports, fund, from);
    ledger' := LandRound(ledger, toFund);
  }

  /** After the plan: leftovers of at most three spare units, then new accounts of one unit or one share. */
  ghost predicate UnitsPlanned(from: RoundStart, units: seq<nat>) {
    && units == SplitUnits(from.units, |from.units|) && |from.funded| <= |units| && from.c >= 2
    && (forall t :: 0 <= t < |from.funded| ==> units[t] <= 4)
    && (forall t :: |from.funded| <= t < |units| ==> units[t] == 1 || units[t] == Share(from.c - 1))
  }

  /** Plans a round, for payments that are yet to land. */
  method PlanRound(funded: seq<Account>, notfunded: seq<Key>, lamports: U64, ghost fund: Funding, ghost from: RoundStart)
    returns (accounts: seq<Account>, rest: seq<Key>, toFund: seq<Payment>, ghost units: seq<nat>)
    requires lamports > 0 && lamports == fund.lamports && Distinct(notfunded) && funded != []
    requires funded == from.funded && notfunded == from.keys
    requires UnitsOk(lamports, funded, from.units, notfunded) && Shape(from.units, from.p, from.c)
    requires Books(fund.base, from.ledger, fund.all, funded, notfunded, lamports)
    ensures rest + PaidKeys(toFund) == notfunded && |rest| < |notfunded| && Landable(from.ledger, toFund)
    ensures UnitsOk(lamports, accounts, units, rest) && UnitsPlanned(from, units) && RoundLands(fund, from, toFund)
    ensures Books(fund.base, LandAll(from.ledger, toFund), fund.all, accounts, rest, lamports)
  {
    accounts, rest, toFund, units := Round(funded, notfunded, lamports, fund, from);
    RoundDone(fund, from, accounts, rest, toFund, units);
  }

  /** All that a finished plan is good for. */
  lemma RoundDone(
    fund: Funding, from: RoundStart, accounts: seq<Account>, rest: seq<Key>, toFund: seq<Payment>, units: seq<nat>)
    requires RoundOk(fund, from, |from.funded|, accounts, rest, toFund, units) && from.funded != []
    requires UnitsOk(fund.lamports, from.funded, from.units, from.keys) && Shape(from.units, from.p, from.c)
    requires Books(fund.base, from.ledger, fund.all, from.funded, from.keys, fund.lamports) && fund.lamports > 0
    ensures rest + PaidKeys(toFund) == from.keys && |rest| < |from.keys| && Landable(from.ledger, toFund)
    ensures UnitsPlanned(from, units) && RoundLands(fund, from, toFund)
  {
    RoundPayments(fund, from, accounts, rest, toFund, units);
    RoundLanded(fund, from, accounts, rest, toFund, units);
    UnitsArePlanned(from, fund.lamports, units, toFund);
  }

  lemma UnitsArePlanned(from: RoundStart, lamports: nat, units: seq<nat>, toFund: seq<Payment>)
    requires SplitOk(from.funded, from.units, from.c, lamports, |from.funded|, units, toFund)
    requires units == SplitUnits(from.units, |from.funded|)
    ensures UnitsPlanned(from, units)
  {
  }

  // ---------------------------------------------------------------------------
  // The run as a whole
  // ---------------------------------------------------------------------------

  ghost predicate EmptyBase(fund: Funding) {
    forall k :: k in fund.all ==> Balance(fund.base, k) == 0
  }

  /** What the replays of a round depend on. */
  ghost predicate RoundLands(fund: Funding, from: RoundStart, toFund: seq<Payment>) {
    && Affordable(from.ledger, toFund) && Free(toFund) && WellFormed(toFund) && PayersUnpaid(toFund)
    && (forall t :: 0 <= t < |toFund| ==> toFund[t].from !in from.keys)
    && (EmptyBase(fund) ==>
          (CostlyRound(RoundRun(from.ledger, [], toFund)) <==> NoneTwoOrEight(from.units, |from.units|)))
  }

  lemma RoundLanded(
    fund: Funding, from: RoundStart, accounts: seq<Account>, notfunded: seq<Key>, toFund: seq<Payment>, units: seq<nat>)
    requires RoundOk(fund, from, |from.funded|, accounts, notfunded, toFund, units)
    requires UnitsOk(fund.lamports, from.funded, from.units, from.keys) && fund.lamports > 0
    requires Books(fund.base, from.ledger, fund.all, from.funded, from.keys, fund.lamports) && PayersUnpaid(toFund)
    ensures RoundLands(fund, from, toFund)
  {
    if EmptyBase(fund) {
      CostlyIffUnits(fund, from, accounts, notfunded, toFund, units);
    }
  }

  lemma CostlyIffUnits(
    fund: Funding, from: RoundStart, accounts: seq<Account>, notfunded: seq<Key>, toFund: seq<Payment>, units: seq<nat>)
    requires RoundOk(fund, from, |from.funded|, accounts, notfunded, toFund, units)
    requires UnitsOk(fund.lamports, from.funded, from.units, from.keys) && fund.lamports > 0
    requires Books(fund.base, from.ledger, fund.all, from.funded, from.keys, fund.lamports) && EmptyBase(fund)
    ensures CostlyRound(RoundRun(from.ledger, [], toFund)) <==> NoneTwoOrEight(from.units, |from.units|)
  {
    forall t | 0 <= t < |toFund|
      ensures 2 * Paid(toFund[t].moves) > Balance(from.ledger, toFund[t].from)
         <==> from.units[t] != 2 && from.units[t] != 8
    {
      SourceReplay(fund, from, accounts, notfunded, toFund, units, t);
    }
  }

  /** Whoever has paid is not among the keys to be funded. */
  ghost predicate PayersDone(payments: seq<Payment>, keys: seq<Key>) {
    forall i :: 0 <= i < |payments| ==> payments[i].from !in keys
  }

  /** One more round of the run. */
  lemma RunExtends(
    fund: Funding, from: RoundStart, start: Ledger, rounds: seq<RoundRun>, payments: seq<Payment>,
    toFund: seq<Payment>, rest: seq<Key>)
    requires Run(start, rounds, payments, from.ledger) && PayersDone(payments, from.keys)
    requires RoundLands(fund, from, toFund) && rest + PaidKeys(toFund) == from.keys
    ensures Run(start, rounds + [RoundRun(from.ledger, payments, toFund)], payments + toFund, LandAll(from.ledger, toFund))
    ensures PayersDone(payments + toFund, rest)
  {
    var r := RoundRun(from.ledger, payments, toFund);
    forall t, v | 0 <= t < |toFund| && 0 <= v < |toFund[t].moves| ensures toFund[t].moves[v].0 in from.keys {
      PaidKeysMember(toFund, t, v);
      assert toFund[t].moves[v].0 in rest + PaidKeys(toFund);
    }
    assert forall k :: k in rest ==> k in rest + PaidKeys(toFund);
    assert (rounds + [r])[..|rounds|] == rounds && (rounds + [r])[|rounds|] == r;
  }

  /** The units at the beginning of round r. */
  ghost function UnitsAfter(units: seq<nat>, r: nat): seq<nat> {
    if r == 0 then units else NextUnits(UnitsAfter(units, r - 1))
  }

  /** Round r is costly exactly if none of the units at its beginning is two or eight. */
  ghost predicate Tracked(rounds: seq<RoundRun>, units: seq<nat>) {
    rounds == [] ||
    var before, last := rounds[..|rounds| - 1], rounds[|rounds| - 1];
    && Tracked(before, units)
    && (CostlyRound(last) <==>
        NoneTwoOrEight(UnitsAfter(units, |before|), |UnitsAfter(units, |before|)|))
  }

  lemma TrackedNext(rounds: seq<RoundRun>, r: RoundRun, units: seq<nat>, now: seq<nat>)
    requires Tracked(rounds, units) && now == UnitsAfter(units, |rounds|)
    requires CostlyRound(RoundRun(r.ledger, [], r.plan)) <==> NoneTwoOrEight(now, |now|)
    ensures Tracked(rounds + [r], units) && NextUnits(now) == UnitsAfter(units, |rounds + [r]|)
  {
    assert (rounds + [r])[..|rounds|] == rounds && (rounds + [r])[|rounds|] == r;
    assert CostlyRound(r) <==> CostlyRound(RoundRun(r.ledger, [], r.plan));
  }

  /** One pass of the outer loop, with its place in the run. */
  method RunRound(
    ledger: Ledger, funded: seq<Account>, notfunded: seq<Key>, payments: seq<Payment>, lamports: U64,
    ghost fund: Funding, ghost first: RoundStart, ghost from: RoundStart, ghost rounds: seq<RoundRun>)
    returns (ledger': Ledger, funded': seq<Account>, notfunded': seq<Key>, payments': seq<Payment>,
             ghost from': RoundStart, ghost rounds': seq<RoundRun>)
    requires lamports > 0 && lamports == fund.lamports && Distinct(fund.dests) && notfunded != []
    requires fund.total == Scale(lamports, |fund.dests| + 1)
    requires ledger == from.ledger && funded == from.funded && notfunded == from.keys
    requires BetweenRounds(fund, from, payments) && RunOk(fund, first, from, payments, rounds)
    ensures ledger' == from'.ledger && funded' == from'.funded && notfunded' == from'.keys
    ensures |notfunded'| < |notfunded|
    ensures BetweenRounds(fund, from', payments') && RunOk(fund, first, from', payments', rounds')
  {
    var toFund;
    ledger', funded', notfunded', toFund, from' := FundRound(ledger, funded, notfunded, lamports, fund, from, payments);
    payments' := payments + toFund;
    rounds' := rounds + [RoundRun(ledger, payments, toFund)];
    RunExtends(fund, from, first.ledger, rounds, payments, toFund, notfunded');
    if EmptyBase(fund) {
      TrackedNext(rounds, RoundRun(ledger, payments, toFund), first.units, from.units);
    }
  }

  /** The rounds so far: they lead from the first state to the present one. */
  ghost predicate RunOk(
    fund: Funding, first: RoundStart, from: RoundStart, payments: seq<Payment>, rounds: seq<RoundRun>)
  {
    && Run(first.ledger, rounds, payments, from.ledger) && PayersDone(payments, from.keys)
    && (EmptyBase(fund) ==> Tracked(rounds, first.units) && from.units == UnitsAfter(first.units, |rounds|))
  }

  /** The outer loop, from any state between rounds until every key is funded. */
  method FundRemaining(
    ledger: Ledger, accounts: seq<Account>, keys: seq<Key>, lamports: U64, ghost fund: Funding, ghost first: RoundStart)
    returns (ledger': Ledger, payments: seq<Payment>, ghost rounds: seq<RoundRun>)
    requires lamports > 0 && lamports == fund.lamports && Distinct(keys) && keys == fund.dests
    requires fund.total == Scale(lamports, |keys| + 1)
    requires ledger == first.ledger && accounts == first.funded && keys == first.keys
    requires BetweenRounds(fund, first, [])
    ensures PaidKeys(payments) == keys
    ensures forall k :: k in fund.all ==> Balance(ledger', k) == Balance(fund.base, k) + lamports
    ensures forall k :: k !in fund.all ==> Balance(ledger', k) == Balance(fund.base, k)
    ensures Run(ledger, rounds, payments, ledger')
    ensures EmptyBase(fund) && first.units == [|keys| + 1] ==> (RunSafe(rounds) <==> Replayable(|keys|))
  {
    var funded, notfunded := accounts, keys;
    ledger', payments, rounds := ledger, [], [];
    ghost var last := first;
    while notfunded != []
      invariant ledger' == last.ledger && funded == last.funded && notfunded == last.keys
      invariant BetweenRounds(fund, last, payments) && RunOk(fund, first, last, payments, rounds)
      decreases |notfunded|
    {
      ledger', funded, notfunded, payments, last, rounds := RunRound(
        ledger', funded, notfunded, payments, lamports, fund, first, last, rounds);
    }
    assert [] + PaidKeys(payments) == PaidKeys(payments);
    FundingDone(fund, first, last, payments, rounds);
  }

  lemma EveryoneSettled(fund: Funding, last: RoundStart, payments: seq<Payment>)
    requires BetweenRounds(fund, last, payments) && last.keys == [] && fund.lamports > 0
    ensures forall k :: k in fund.all ==> Balance(last.ledger, k) == Balance(fund.base, k) + fund.lamports
    ensures forall k :: k !in fund.all ==> Balance(last.ledger, k) == Balance(fund.base, k)
  {
    forall k | k in fund.all ensures Balance(last.ledger, k) == Balance(fund.base, k) + fund.lamports {
      SettledWhenDone(fund.base, last.ledger, fund.all, last.funded, last.units, fund.lamports, k);
    }
  }

  lemma FundingDone(fund: Funding, first: RoundStart, last: RoundStart, payments: seq<Payment>, rounds: seq<RoundRun>)
    requires BetweenRounds(fund, last, payments) && last.keys == [] && fund.lamports > 0
    requires RunOk(fund, first, last, payments, rounds)
    ensures forall k :: k in fund.all ==> Balance(last.ledger, k) == Balance(fund.base, k) + fund.lamports
    ensures forall k :: k !in fund.all ==> Balance(last.ledger, k) == Balance(fund.base, k)
    ensures EmptyBase(fund) && first.units == [|fund.dests| + 1] ==> (RunSafe(rounds) <==> Replayable(|fund.dests|))
  {
    EveryoneSettled(fund, last, payments);
    if EmptyBase(fund) && first.units == [|fund.dests| + 1] {
      RunReplayIff(fund, first, last, payments, rounds, |fund.dests|);
    }
  }

  /**
   Funds all destinations. If everybody starts out empty, no transaction of the run, however often it is
   signed again and resent, in its own round or later, applies twice, if and only if the number of
   destinations is replayable.
   */
  method FundKeys(ledger: Ledger, source: Key, dests: seq<Key>, lamports: U64)
    returns (ledger': Ledger, payments: seq<Payment>, ghost rounds: seq<RoundRun>)
    requires lamports > 0 && lamports * (|dests| + 1) <= U64_MAX
    requires Distinct(dests) && source !in dests
    requires Balance(ledger, source) >= lamports * (|dests| + 1)
    ensures PaidKeys(payments) == dests
    ensures forall k :: k in dests ==> Balance(ledger', k) == Balance(ledger, k) + lamports
    ensures Balance(ledger', source) == Balance(ledger, source) - lamports * (|dests| + 1) + lamports
    ensures forall k :: k !in dests && k != source ==> Balance(ledger', k) == Balance(ledger, k)
    ensures Run(ledger, rounds, payments, ledger')
    ensures Balance(ledger, source) == lamports * (|dests| + 1) && (forall k :: k in dests ==> Balance(ledger, k) == 0)
      ==> (RunSafe(rounds) <==> Replayable(|dests|))
  {
    var total: U64 := lamports * (|dests| + 1);
    ghost var all := {source} + set k | k in dests;
    ghost var fund := Funding(ledger[source := Balance(ledger, source) - total], all, dests, lamports, total);
    ghost var first := RoundStart(ledger, [Account(source, total)], dests, [|dests| + 1], 0, |dests| + 1);
    FirstRound(ledger, source, dests, lamports, fund, total, first);
    ledger', payments, rounds := FundRemaining(ledger, [Account(source, total)], dests, lamports, fund, first);
  }

  lemma RunReplayIff(
    fund: Funding, first: RoundStart, last: RoundStart, payments: seq<Payment>, rounds: seq<RoundRun>, n: nat)
    requires RunOk(fund, first, last, payments, rounds) && EmptyBase(fund)
    requires first.units == [n + 1] && Positive(last.units) && Spare(last.units) == 0
    ensures RunSafe(rounds) <==> Replayable(n)
  {
    RunSafeIff(first.ledger, rounds, payments, last.ledger);
    ReplayableRun(rounds, first.units);
    forall i | 0 <= i < |last.units| ensures last.units[i] == 1 {
      SpareAtLeast(last.units, i);
    }
    assert UnitsReplayable(first.units) <==> Replayable(n) by {
      assert first.units[0] == n + 1;
    }
  }

  /** Over the rounds of a run, the units stay replayable exactly while every round is costly. */
  lemma {:induction false} ReplayableRun(rounds: seq<RoundRun>, units: seq<nat>)
    requires Tracked(rounds, units) && Positive(units)
    ensures Positive(UnitsAfter(units, |rounds|))
    ensures UnitsReplayable(units) <==> RunCostly(rounds) && UnitsReplayable(UnitsAfter(units, |rounds|))
    decreases |rounds|
  {
    if rounds != [] {
      var before, last := rounds[..|rounds| - 1], rounds[|rounds| - 1];
      ReplayableRun(before, units);
      ReplayableRound(UnitsAfter(units, |before|));
      RunCostlySnoc(rounds);
    }
  }

  lemma RunCostlySnoc(rounds: seq<RoundRun>)
    requires rounds != []
    ensures RunCostly(rounds) <==> RunCostly(rounds[..|rounds| - 1]) && CostlyRound(rounds[|rounds| - 1])
  {
    assert forall i :: 0 <= i < |rounds| - 1 ==> rounds[..|rounds| - 1][i] == rounds[i];
  }

  /** A round keeps the units replayable exactly if none of them is two or eight. */
  lemma ReplayableRound(units: seq<nat>)
    requires Positive(units)
    ensures Positive(NextUnits(units))
    ensures UnitsReplayable(units) <==> NoneTwoOrEight(units, |units|) && UnitsReplayable(NextUnits(units))
  {
    ReplayableSplits(units, |units|);
    ReplayableKept(SplitUnits(units, |units|));
  }

  lemma {:induction false} ReplayableSplits(units: seq<nat>, i: nat)
    requires Positive(units) && i <= |units|
    ensures |SplitUnits(units, i)| >= |units| && Positive(SplitUnits(units, i))
    ensures forall t :: i <= t < |units| ==> SplitUnits(units, i)[t] == units[t]
    ensures UnitsReplayable(units) <==> NoneTwoOrEight(units, i) && UnitsReplayable(SplitUnits(units, i))
    decreases i
  {
    if i > 0 {
      ReplayableSplits(units, i - 1);
      var before, after := SplitUnits(units, i - 1), SplitUnits(units, i);
      NoneSnoc(units, i);
      if before[i - 1] > 1 {
        ReplayableStep(before, i - 1, Recipients(before[i - 1] - 1), after);
      }
    }
  }

  lemma NoneSnoc(units: seq<nat>, i: nat)
    requires 0 < i <= |units|
    ensures NoneTwoOrEight(units, i) <==> NoneTwoOrEight(units, i - 1) && units[i - 1] != 2 && units[i - 1] != 8
  {
  }

  lemma ReplayableStep(units: seq<nat>, i: nat, m: nat, units': seq<nat>)
    requires UnitsSplitOff(units, i, m, units') && Positive(units)
    ensures UnitsReplayable(units) <==> units[i] != 2 && units[i] != 8 && UnitsReplayable(units')
    ensures Positive(units') && |units'| >= |units| && forall t :: 0 <= t < |units| && t != i ==> units'[t] == units[t]
  {
    var s := units[i] - 1;
    ShareFacts(s);
    assert forall t :: 0 <= t < |units| && t != i ==> units'[t] == units[t];
    assert units'[i] == 1 + Leftover(s) && units'[|units|] == Share(s);
    assert forall t :: |units| <= t < |units'| ==> units'[t] == Share(s);
    assert Replayable(s) <==> s != 1 && s != 7 && Replayable(Leftover(s)) && Replayable(Share(s) - 1);
  }

  lemma {:induction false} ReplayableKept(units: seq<nat>)
    requires Positive(units)
    ensures Positive(KeptUnits(units)) && (UnitsReplayable(units) <==> UnitsReplayable(KeptUnits(units)))
    decreases |units|
  {
    if units != [] {
      var n := |units| - 1;
      assert units == units[..n] + [units[n]];
      ReplayableKept(units[..n]);
      ReplayableSnoc(units[..n], units[n]);
      ReplayableSnoc(KeptUnits(units[..n]), units[n]);
    }
  }

  lemma ReplayableSnoc(units: seq<nat>, u: nat)
    requires u >= 1
    ensures UnitsReplayable(units + [u]) <==> UnitsReplayable(units) && Replayable(u - 1)
  {
    assert (units + [u])[|units|] == u;
    assert forall i :: 0 <= i < |units| ==> (units + [u])[i] == units[i];
  }

  /** The condition in terms of the number of keys: one in four numbers fails at each stage. */
  lemma ReplayableIff(n: nat)
    ensures n < 4 ==> (Replayable(n) <==> n != 1)
    ensures n >= 4 ==> (Replayable(n) <==> n % 4 != 1 && n != 7 && Replayable(n / 4 - 1))
  {
    if n >= 4 {
      assert Leftover(n) == n % 4 && Share(n) == n / 4;
      ReplayableIff(n % 4);
    }
  }

  /** While keys are unfunded, some funded account is left to pay for them. */
  lemma NeverOutOfFunds(fund: Funding, from: RoundStart, payments: seq<Payment>)
    requires BetweenRounds(fund, from, payments) && from.keys != []
    ensures from.funded != []
  {
    assert |from.units| == 0 ==> Spare(from.units) == 0;
  }

  lemma PrefixDistinct(notfunded: seq<Key>, rest: seq<Key>)
    requires Distinct(notfunded + rest)
    ensures Distinct(notfunded)
  {
    ChunkIsFresh(notfunded, rest);
  }

  lemma FirstRound(
    ledger: Ledger, source: Key, dests: seq<Key>, lamports: nat, fund: Funding, total: U64, first: RoundStart)
    requires source !in dests && total == lamports * (|dests| + 1) <= Balance(ledger, source)
    requires fund == Funding(
      ledger[source := Balance(ledger, source) - total], {source} + (set k | k in dests), dests, lamports, total)
    requires first == RoundStart(ledger, [Account(source, total)], dests, [|dests| + 1], 0, |dests| + 1)
    ensures BetweenRounds(fund, first, []) && total == Scale(lamports, |dests| + 1)
  {
    ScaleIsProduct(lamports, |dests| + 1);
    assert first.funded[0].key == source;
    assert Listed(first.funded, source);
    BalancesWithinTotal(lamports, first.funded, first.units, dests, |dests|);
    assert dests + [] == dests;
  }

  // ---------------------------------------------------------------------------
  // Replays
  // ---------------------------------------------------------------------------

  lemma {:induction false} ScaleTimes(lamports: nat, m: nat, u: nat)
    ensures m * Scale(lamports, u) == Scale(lamports, m * u)
  {
    ScaleIsProduct(lamports, u);
    ScaleIsProduct(lamports, m * u);
    assert m * (lamports * u) == lamports * (m * u);
  }

  lemma ScaleCompares(lamports: nat, u: nat, w: nat)
    requires lamports > 0
    ensures Scale(lamports, u) > Scale(lamports, w) <==> u > w
  {
    if u > w {
      ScaleMonotone(lamports, w, u - 1);
    } else {
      ScaleMonotone(lamports, u, w);
    }
  }

  /** A source with s spare units can pay twice exactly for one or seven of them. */
  lemma PaysTwiceIff(s: nat)
    requires s > 0
    ensures 2 * (Recipients(s) * Share(s)) <= s + 1 <==> s == 1 || s == 7
  {
    ShareFacts(s);
  }

  lemma SourceCost(lamports: nat, s: nat, moves: seq<(Key, nat)>)
    requires lamports > 0 && s > 0 && |moves| == Recipients(s)
    requires forall v :: 0 <= v < |moves| ==> moves[v].1 == Scale(lamports, Share(s))
    ensures 2 * Paid(moves) > Scale(lamports, s + 1) <==> s != 1 && s != 7
    ensures Paid(moves) <= Scale(lamports, s + 1)
  {
    ShareFacts(s);
    ScaleMonotone(lamports, Recipients(s) * Share(s), s + 1);
    EqualAmounts(moves, Scale(lamports, Share(s)));
    ScaleTimes(lamports, Recipients(s), Share(s));
    ScaleTimes(lamports, 2, Recipients(s) * Share(s));
    ScaleCompares(lamports, 2 * (Recipients(s) * Share(s)), s + 1);
    PaysTwiceIff(s);
  }

  /** What a source holds: what it held before, and its book balance. */
  lemma SourceHolds(
    fund: Funding, from: RoundStart, accounts: seq<Account>, notfunded: seq<Key>, toFund: seq<Payment>, units: seq<nat>,
    t: nat)
    requires RoundOk(fund, from, |from.funded|, accounts, notfunded, toFund, units) && t < |toFund|
    requires Books(fund.base, from.ledger, fund.all, from.funded, from.keys, fund.lamports)
    ensures toFund[t].from == from.funded[t].key
    ensures Balance(from.ledger, toFund[t].from) == Balance(fund.base, toFund[t].from) + from.funded[t].balance
  {
  }

  lemma SourceReplay(
    fund: Funding, from: RoundStart, accounts: seq<Account>, notfunded: seq<Key>, toFund: seq<Payment>, units: seq<nat>,
    t: nat)
    requires RoundOk(fund, from, |from.funded|, accounts, notfunded, toFund, units) && t < |toFund|
    requires UnitsOk(fund.lamports, from.funded, from.units, from.keys) && fund.lamports > 0
    requires Books(fund.base, from.ledger, fund.all, from.funded, from.keys, fund.lamports) && EmptyBase(fund)
    ensures 2 * Paid(toFund[t].moves) > Balance(from.ledger, toFund[t].from)
       <==> from.units[t] != 2 && from.units[t] != 8
  {
    SourceHolds(fund, from, accounts, notfunded, toFund, units, t);
    assert Balance(from.ledger, from.funded[t].key) == Scale(fund.lamports, from.units[t]);
    SourceCost(fund.lamports, from.units[t] - 1, toFund[t].moves);
  }

  /**
   The transactions of a round can be replayed exactly if each costs more than half of what its source
   holds: its book balance, and whatever it held before.
   */
  lemma RoundReplayIff(
    fund: Funding, from: RoundStart, accounts: seq<Account>, notfunded: seq<Key>, toFund: seq<Payment>, units: seq<nat>)
    requires RoundOk(fund, from, |from.funded|, accounts, notfunded, toFund, units)
    requires Books(fund.base, from.ledger, fund.all, from.funded, from.keys, fund.lamports)
    requires Shape(from.units, from.p, from.c) && from.funded != []
    ensures AtMostOnce(toFund, from.ledger, 0) <==>
      forall t :: 0 <= t < |toFund| ==>
        2 * Paid(toFund[t].moves) > Balance(fund.base, from.funded[t].key) + from.funded[t].balance
  {
    RoundFormedPlan(fund, from, accounts, notfunded, toFund, units);
    PlanReplayIff(from.ledger, toFund);
    forall t | 0 <= t < |toFund|
      ensures Balance(from.ledger, toFund[t].from) == Balance(fund.base, from.funded[t].key) + from.funded[t].balance
    {
      SourceHolds(fund, from, accounts, notfunded, toFund, units, t);
    }
  }

  /** If the sources held nothing before, that is the case exactly if none of them has two or eight units. */
  lemma FreshRoundReplayIff(
    fund: Funding, from: RoundStart, accounts: seq<Account>, notfunded: seq<Key>, toFund: seq<Payment>, units: seq<nat>)
    requires RoundOk(fund, from, |from.funded|, accounts, notfunded, toFund, units)
    requires UnitsOk(fund.lamports, from.funded, from.units, from.keys) && Shape(from.units, from.p, from.c)
    requires Books(fund.base, from.ledger, fund.all, from.funded, from.keys, fund.lamports)
    requires fund.lamports > 0 && from.funded != [] && EmptyBase(fund)
    ensures AtMostOnce(toFund, from.ledger, 0) <==> NoneTwoOrEight(from.units, |from.units|)
  {
    RoundFormedPlan(fund, from, accounts, notfunded, toFund, units);
    PlanReplayIff(from.ledger, toFund);
    CostlyIffUnits(fund, from, accounts, notfunded, toFund, units);
  }

  lemma RoundFormedPlan(
    fund: Funding, from: RoundStart, accounts: seq<Account>, notfunded: seq<Key>, toFund: seq<Payment>, units: seq<nat>)
    requires RoundOk(fund, from, |from.funded|, accounts, notfunded, toFund, units)
    requires Books(fund.base, from.ledger, fund.all, from.funded, from.keys, fund.lamports)
    requires Shape(from.units, from.p, from.c) && from.funded != []
    ensures RoundFormed(RoundRun(from.ledger, [], toFund))
  {
    RoundPayments(fund, from, accounts, notfunded, toFund, units);
  }

  lemma PlanReplayIff(ledger: Ledger, plan: seq<Payment>)
    requires RoundFormed(RoundRun(ledger, [], plan))
    ensures AtMostOnce(plan, ledger, 0) <==> CostlyRound(RoundRun(ledger, [], plan))
  {
    AtMostOnceIff(plan, ledger, 0);
  }

  /** A source that holds twice its book balance can always pay twice, as the bench's own source does. */
  lemma RichSourcePaysTwice(
    fund: Funding, from: RoundStart, accounts: seq<Account>, notfunded: seq<Key>, toFund: seq<Payment>, units: seq<nat>,
    t: nat)
    requires RoundOk(fund, from, |from.funded|, accounts, notfunded, toFund, units) && t < |toFund|
    requires Books(fund.base, from.ledger, fund.all, from.funded, from.keys, fund.lamports)
    requires UnitsOk(fund.lamports, from.funded, from.units, from.keys) && Shape(from.units, from.p, from.c)
    requires fund.lamports > 0 && Balance(fund.base, from.funded[t].key) >= from.funded[t].balance
    ensures Applied(from.ledger, [toFund[t], toFund[t]], toFund[t].from) == 2 && !AtMostOnce(toFund, from.ledger, 0)
  {
    RoundFormedPlan(fund, from, accounts, notfunded, toFund, units);
    SourceHolds(fund, from, accounts, notfunded, toFund, units, t);
    SourceCost(fund.lamports, from.units[t] - 1, toFund[t].moves);
    PaysTwice(from.ledger, toFund, t);
  }

  lemma PaysTwice(ledger: Ledger, plan: seq<Payment>, t: nat)
    requires RoundFormed(RoundRun(ledger, [], plan)) && t < |plan| && plan[t].fee == 0
    requires 2 * Paid(plan[t].moves) <= Balance(ledger, plan[t].from)
    ensures Applied(ledger, [plan[t], plan[t]], plan[t].from) == 2 && !AtMostOnce(plan, ledger, 0)
  {
    TwoInARow(ledger, plan[t]);
    CheapAppliesTwice(plan, ledger, 0, [], t);
  }

  lemma TwoInARow(ledger: Ledger, payment: Payment)
    requires forall v :: 0 <= v < |payment.moves| ==> payment.moves[v].0 != payment.from
    requires 2 * (Paid(payment.moves) + payment.fee) <= Balance(ledger, payment.from)
    ensures Applied(ledger, [payment, payment], payment.from) == 2
  {
    TwiceInARow(ledger, [], payment);
    assert [] + [payment] + [payment] == [payment, payment];
  }

  /** Seven keys out of eight units: the transaction that the first round plans applies again if it is replayed. */
  lemma SevenKeysPaidTwice(
    fund: Funding, from: RoundStart, accounts: seq<Account>, notfunded: seq<Key>, toFund: seq<Payment>, units: seq<nat>)
    requires RoundOk(fund, from, 1, accounts, notfunded, toFund, units) && |from.keys| == 7 && from.units == [8]
    requires UnitsOk(fund.lamports, from.funded, from.units, from.keys) && Shape(from.units, from.p, from.c)
    requires Books(fund.base, from.ledger, fund.all, from.funded, from.keys, fund.lamports) && fund.lamports > 0
    ensures Applied(from.ledger, [toFund[0], toFund[0]], toFund[0].from) == 2 && !Replayable(7)
  {
    RoundFormedPlan(fund, from, accounts, notfunded, toFund, units);
    SourceHolds(fund, from, accounts, notfunded, toFund, units, 0);
    SourceCost(fund.lamports, 7, toFund[0].moves);
    PaysTwice(from.ledger, toFund, 0);
  }
}
