/**
 The order book of the exchange bench (`bench-exchange/src/order_book.rs`) and the loop of the
 swapper that drains it (`bench-exchange/src/bench.rs`).

 A binary heap is a multiset whose `peek` returns some element that no other element exceeds; ties
 are resolved arbitrarily. The main result is that the greedy drain collects the largest total
 spread that any choice of at most `batchSize` disjoint ask/bid pairs can reach.
 */
module OrderMatching {
  import opened Wrappers

  const SCALER: nat := 1000
  const U64_MODULUS: nat := 0x1_0000_0000_0000_0000

  type Pubkey = nat

  datatype OrderSide = Ask | Bid

  datatype OrderInfo = OrderInfo(owner: Pubkey, side: OrderSide, tokens: nat, price: nat)

  datatype Order = Order(pubkey: Pubkey, info: OrderInfo) {
    function Price(): nat { info.price }
  }

  /** The outcome of `check_trade`; the division of the bid side panics on a price of zero. */
  datatype TradeCheck = Tradeable | InvalidTrade | DivisionByZero

  /** Products wrap around at 64 bits, as in a release build. */
  function CheckTrade(side: OrderSide, tokens: nat, price: nat): TradeCheck {
    match side
    case Ask =>
      if tokens * price % U64_MODULUS / SCALER == 0 then InvalidTrade else Tradeable
    case Bid =>
      if price == 0 then DivisionByZero
      else if tokens * SCALER % U64_MODULUS / price == 0 then InvalidTrade
      else Tradeable
  }

  /** A quotient of naturals is zero exactly if the dividend is the smaller one. */
  lemma QuotientIsZeroIff(x: nat, d: nat)
    requires d > 0
    ensures x / d == 0 <==> x < d
  {
    if x < d {
      assert x / d == 0;
    } else {
      assert x == (x / d) * d + x % d;
    }
  }

  /** An ask must be worth one unit of the scaled price, a bid must cover one; both after wrap-around. */
  lemma TradeableIff(side: OrderSide, tokens: nat, price: nat)
    ensures CheckTrade(side, tokens, price).DivisionByZero? <==> side.Bid? && price == 0
    ensures side.Ask? ==> (CheckTrade(side, tokens, price).Tradeable? <==> tokens * price % U64_MODULUS >= 1000)
    ensures side.Bid? && price > 0 ==>
      (CheckTrade(side, tokens, price).Tradeable? <==> tokens * 1000 % U64_MODULUS >= price)
  {
    if side.Ask? {
      QuotientIsZeroIff(tokens * price % U64_MODULUS, SCALER);
    } else if price > 0 {
      QuotientIsZeroIff(tokens * SCALER % U64_MODULUS, price);
    }
  }

  /** While the products fit 64 bits, nothing wraps around. */
  lemma FittingTradeIff(side: OrderSide, tokens: nat, price: nat)
    ensures side.Ask? && tokens * price < U64_MODULUS ==>
      (CheckTrade(side, tokens, price).Tradeable? <==> tokens * price >= 1000)
    ensures side.Bid? && price > 0 && tokens * 1000 < U64_MODULUS ==>
      (CheckTrade(side, tokens, price).Tradeable? <==> tokens * 1000 >= price)
  {
    TradeableIff(side, tokens, price);
    if tokens * price < U64_MODULUS {
      NoWrap(tokens * price);
    }
    if tokens * 1000 < U64_MODULUS {
      NoWrap(tokens * 1000);
    }
  }

  lemma NoWrap(x: nat)
    requires x < U64_MODULUS
    ensures x % U64_MODULUS == x
  {
  }

  /** An ask worth 2^64 wraps around to nothing and is refused. */
  lemma HugeAskRefused()
    ensures CheckTrade(Ask, 0x1_0000_0000, 0x1_0000_0000) == InvalidTrade
  {
  }

  // ---------------------------------------------------------------------------
  // Books and pairs
  // ---------------------------------------------------------------------------

  /** The asks (`to_ab`) and the bids (`from_ab`). */
  datatype Book = Book(asks: multiset<Order>, bids: multiset<Order>) {
    function Without(ask: Order, bid: Order): Book {
      Book(asks - multiset{ask}, bids - multiset{bid})
    }

    function Add(order: Order): Book {
      match order.info.side
      case Ask => Book(asks + multiset{order}, bids)
      case Bid => Book(asks, bids + multiset{order})
    }

    ghost predicate Viable() {
      exists ask, bid :: ask in asks && bid in bids && ask.Price() <= bid.Price()
    }

    /** The cheapest ask against the dearest bid, and the bid covers the ask. */
    ghost predicate BestPair(ask: Order, bid: Order) {
      && ask in asks && bid in bids && ask.Price() <= bid.Price()
      && (forall other :: other in asks ==> ask.Price() <= other.Price())
      && (forall other :: other in bids ==> other.Price() <= bid.Price())
    }
  }

  type Swap = (Order, Order)

  function Total(orders: seq<Order>): nat {
    if orders == [] then 0 else orders[0].Price() + Total(orders[1..])
  }

  /** The matcher's profit: bid price minus ask price, over all swaps. */
  function Spread(swaps: seq<Swap>): int {
    if swaps == [] then 0 else swaps[0].1.Price() - swaps[0].0.Price() + Spread(swaps[1..])
  }

  function Asks(swaps: seq<Swap>): seq<Order> {
    if swaps == [] then [] else [swaps[0].0] + Asks(swaps[1..])
  }

  function Bids(swaps: seq<Swap>): seq<Order> {
    if swaps == [] then [] else [swaps[0].1] + Bids(swaps[1..])
  }

  /** Each swap takes the best pair of the book that the swaps before it leave. */
  ghost predicate GreedyRun(book: Book, swaps: seq<Swap>, rest: Book)
    decreases |swaps|
  {
    if swaps == [] then rest == book
    else
      && book.BestPair(swaps[0].0, swaps[0].1)
      && GreedyRun(book.Without(swaps[0].0, swaps[0].1), swaps[1..], rest)
  }

  /** Pairs that use each order of the book at most as often as the book holds it. */
  ghost predicate DisjointPairs(book: Book, pairs: seq<Swap>) {
    multiset(Asks(pairs)) <= book.asks && multiset(Bids(pairs)) <= book.bids
  }

  // ---------------------------------------------------------------------------
  // Greedy matching is optimal
  // ---------------------------------------------------------------------------

  function RemoveAt(orders: seq<Order>, i: nat): seq<Order>
    requires i < |orders|
  {
    orders[..i] + orders[i + 1..]
  }

  lemma {:induction false} TotalRemoveAt(orders: seq<Order>, i: nat)
    requires i < |orders|
    ensures Total(orders) == orders[i].Price() + Total(RemoveAt(orders, i))
    decreases i
  {
    if i == 0 {
      assert RemoveAt(orders, 0) == orders[1..];
    } else {
      TotalRemoveAt(orders[1..], i - 1);
      assert RemoveAt(orders, i)[1..] == RemoveAt(orders[1..], i - 1);
    }
  }

  /** Exchange step: give up `best` if it is used, and otherwise any one order. */
  lemma ExchangeOne(orders: seq<Order>, heap: multiset<Order>, best: Order) returns (i: nat)
    requires orders != [] && multiset(orders) <= heap && best in heap
    ensures i < |orders| && orders[i] in heap
    ensures multiset(RemoveAt(orders, i)) <= heap - multiset{best}
  {
    if best in orders {
      i :| 0 <= i < |orders| && orders[i] == best;
    } else {
      i := 0;
    }
    assert orders[i] in orders;
    assert orders == orders[..i] + [orders[i]] + orders[i + 1..];
    assert multiset(orders) == multiset(RemoveAt(orders, i)) + multiset{orders[i]};
  }

  /** What remains of a selection after the exchange step, and the price of the order given up. */
  lemma GiveUpOne(orders: seq<Order>, heap: multiset<Order>, best: Order) returns (left: seq<Order>)
    requires orders != [] && multiset(orders) <= heap && best in heap
    ensures |left| == |orders| - 1 && multiset(left) <= heap - multiset{best}
    ensures exists order :: order in heap && Total(orders) == order.Price() + Total(left)
  {
    var i := ExchangeOne(orders, heap, best);
    TotalRemoveAt(orders, i);
    left := RemoveAt(orders, i);
  }

  lemma {:induction false} UnviableGainsNothing(asks: seq<Order>, bids: seq<Order>)
    requires |asks| == |bids|
    requires forall ask, bid :: ask in asks && bid in bids ==> bid.Price() <= ask.Price()
    ensures Total(bids) <= Total(asks)
    decreases |asks|
  {
    if asks != [] {
      assert asks[0] in asks && bids[0] in bids;
      UnviableGainsNothing(asks[1..], bids[1..]);
    }
  }

  lemma {:induction false} GreedySpreadNonnegative(book: Book, swaps: seq<Swap>, rest: Book)
    requires GreedyRun(book, swaps, rest)
    ensures Spread(swaps) >= 0
    decreases |swaps|
  {
    if swaps != [] {
      GreedySpreadNonnegative(book.Without(swaps[0].0, swaps[0].1), swaps[1..], rest);
    }
  }

  /** No choice of equally many asks and bids, at most `cap` of each, beats a full greedy run. */
  lemma {:induction false} GreedyBeatsSelection(
    book: Book, swaps: seq<Swap>, rest: Book, cap: nat, asks: seq<Order>, bids: seq<Order>)
    requires GreedyRun(book, swaps, rest)
    requires |swaps| == cap || !rest.Viable()
    requires multiset(asks) <= book.asks && multiset(bids) <= book.bids
    requires |asks| == |bids| <= cap
    ensures Total(bids) - Total(asks) <= Spread(swaps)
    decreases |swaps|
  {
    if asks == [] {
      GreedySpreadNonnegative(book, swaps, rest);
    } else if swaps == [] {
      forall ask, bid | ask in asks && bid in bids ensures bid.Price() <= ask.Price() {
        assert ask in multiset(asks) && bid in multiset(bids);
      }
      UnviableGainsNothing(asks, bids);
    } else {
      var (ask, bid) := swaps[0];
      var asks' := GiveUpOne(asks, book.asks, ask);
      var bids' := GiveUpOne(bids, book.bids, bid);
      GreedyBeatsSelection(book.Without(ask, bid), swaps[1..], rest, cap - 1, asks', bids');
    }
  }

  lemma {:induction false} PairTotals(pairs: seq<Swap>)
    ensures |Asks(pairs)| == |Bids(pairs)| == |pairs|
    ensures Spread(pairs) == Total(Bids(pairs)) - Total(Asks(pairs))
    decreases |pairs|
  {
    if pairs != [] {
      PairTotals(pairs[1..]);
      assert Asks(pairs)[1..] == Asks(pairs[1..]) && Bids(pairs)[1..] == Bids(pairs[1..]);
    }
  }

  /** The drained swaps reach the largest total spread of any `cap` disjoint pairs of the book. */
  lemma GreedyIsOptimal(book: Book, swaps: seq<Swap>, rest: Book, cap: nat, pairs: seq<Swap>)
    requires GreedyRun(book, swaps, rest)
    requires |swaps| == cap || !rest.Viable()
    requires DisjointPairs(book, pairs) && |pairs| <= cap
    ensures Spread(pairs) <= Spread(swaps)
  {
    PairTotals(pairs);
    GreedyBeatsSelection(book, swaps, rest, cap, Asks(pairs), Bids(pairs));
  }

  /** The greedy swaps are themselves disjoint pairs of the book, and account for all that left it. */
  lemma {:induction false} GreedyConserves(book: Book, swaps: seq<Swap>, rest: Book)
    requires GreedyRun(book, swaps, rest)
    ensures multiset(Asks(swaps)) + rest.asks == book.asks
    ensures multiset(Bids(swaps)) + rest.bids == book.bids
    decreases |swaps|
  {
    if swaps != [] {
      var (ask, bid) := swaps[0];
      GreedyConserves(book.Without(ask, bid), swaps[1..], rest);
      PutBack(book.asks, ask, Asks(swaps[1..]), rest.asks);
      PutBack(book.bids, bid, Bids(swaps[1..]), rest.bids);
    }
  }

  lemma PutBack(heap: multiset<Order>, order: Order, others: seq<Order>, rest: multiset<Order>)
    requires order in heap && multiset(others) + rest == heap - multiset{order}
    ensures multiset([order] + others) + rest == heap
  {
    assert multiset([order] + others) == multiset{order} + multiset(others);
  }

  /** A greedy run goes on with the best pair of what it left. */
  lemma {:induction false} GreedyExtend(book: Book, swaps: seq<Swap>, rest: Book, ask: Order, bid: Order)
    requires GreedyRun(book, swaps, rest) && rest.BestPair(ask, bid)
    ensures GreedyRun(book, swaps + [(ask, bid)], rest.Without(ask, bid))
    decreases |swaps|
  {
    if swaps == [] {
      assert swaps + [(ask, bid)] == [(ask, bid)];
      assert [(ask, bid)][1..] == [];
    } else {
      TailOfSnoc(swaps, (ask, bid));
      GreedyExtend(book.Without(swaps[0].0, swaps[0].1), swaps[1..], rest, ask, bid);
    }
  }

  lemma TailOfSnoc(swaps: seq<Swap>, last: Swap)
    requires swaps != []
    ensures (swaps + [last])[0] == swaps[0] && (swaps + [last])[1..] == swaps[1..] + [last]
  {
  }

  // ---------------------------------------------------------------------------
  // Every run of pushes and pops
  // ---------------------------------------------------------------------------

  datatype Event = Pushed(order: Order) | Rejected | Swapped(ask: Order, bid: Order) | NoSwap

  ghost predicate Step(before: Book, event: Event, after: Book) {
    match event
    case Pushed(order) => after == before.Add(order)
    case Rejected => after == before
    case Swapped(ask, bid) => before.BestPair(ask, bid) && after == before.Without(ask, bid)
    case NoSwap => !before.Viable() && after == before
  }

  ghost predicate StepAt(states: seq<Book>, events: seq<Event>, i: nat)
    requires |states| == |events| + 1 && i < |events|
  {
    Step(states[i], events[i], states[i + 1])
  }

  ghost predicate Run(states: seq<Book>, events: seq<Event>) {
    |states| == |events| + 1 && forall i :: 0 <= i < |events| ==> StepAt(states, events, i)
  }

  /** How often one event adds the order to the book, and how often it takes the order out. */
  ghost function Taken(event: Event, order: Order): nat {
    if event == Pushed(order) then 1 else 0
  }

  ghost function Given(event: Event, order: Order): nat {
    if event.Swapped? then multiset{event.ask, event.bid}[order] else 0
  }

  ghost function Accepted(events: seq<Event>, k: nat, order: Order): nat
    requires k <= |events|
  {
    if k == 0 then 0 else Accepted(events, k - 1, order) + Taken(events[k - 1], order)
  }

  ghost function Popped(events: seq<Event>, k: nat, order: Order): nat
    requires k <= |events|
  {
    if k == 0 then 0 else Popped(events, k - 1, order) + Given(events[k - 1], order)
  }

  ghost function Outstanding(book: Book, order: Order): nat {
    book.asks[order] + book.bids[order]
  }

  lemma StepConserves(before: Book, event: Event, after: Book, order: Order)
    requires Step(before, event, after)
    ensures Outstanding(before, order) + Taken(event, order) == Given(event, order) + Outstanding(after, order)
  {
  }

  /** Orders are neither lost nor duplicated: each accepted order is popped or outstanding. */
  lemma {:induction false} RunConserves(states: seq<Book>, events: seq<Event>, k: nat, order: Order)
    requires Run(states, events) && k <= |events|
    ensures Outstanding(states[0], order) + Accepted(events, k, order)
         == Popped(events, k, order) + Outstanding(states[k], order)
    decreases k
  {
    if k > 0 {
      RunConserves(states, events, k - 1, order);
      assert StepAt(states, events, k - 1);
      StepConserves(states[k - 1], events[k - 1], states[k], order);
    }
  }

  ghost predicate Bounded(book: Book, lo: nat, hi: nat) {
    && (forall ask :: ask in book.asks ==> lo <= ask.Price())
    && (forall bid :: bid in book.bids ==> bid.Price() <= hi)
  }

  lemma StepBounds(before: Book, event: Event, after: Book, lo: nat, hi: nat)
    requires Step(before, event, after)
    ensures event.Swapped? ==> Bounded(after, event.ask.Price(), event.bid.Price())
    ensures Bounded(before, lo, hi) && !event.Pushed? ==> Bounded(after, lo, hi)
    ensures Bounded(before, lo, hi) && event.Swapped? ==> lo <= event.ask.Price() && event.bid.Price() <= hi
  {
  }

  lemma {:induction false} BoundedUntilPush(states: seq<Book>, events: seq<Event>, i: nat, k: nat)
    requires Run(states, events)
    requires i < k <= |events| && events[i].Swapped?
    requires forall t :: i < t < k ==> !events[t].Pushed?
    ensures Bounded(states[k], events[i].ask.Price(), events[i].bid.Price())
    decreases k
  {
    assert StepAt(states, events, k - 1);
    StepBounds(states[k - 1], events[k - 1], states[k], events[i].ask.Price(), events[i].bid.Price());
    if i < k - 1 {
      BoundedUntilPush(states, events, i, k - 1);
    }
  }

  /** Between pushes, popped asks only get dearer, popped bids only get cheaper, and spreads shrink. */
  lemma RunMonotone(states: seq<Book>, events: seq<Event>, i: nat, j: nat)
    requires Run(states, events)
    requires i < j < |events| && events[i].Swapped? && events[j].Swapped?
    requires forall t :: i < t < j ==> !events[t].Pushed?
    ensures events[i].ask.Price() <= events[j].ask.Price()
    ensures events[j].bid.Price() <= events[i].bid.Price()
    ensures events[j].bid.Price() - events[j].ask.Price() <= events[i].bid.Price() - events[i].ask.Price()
  {
    BoundedUntilPush(states, events, i, j);
    assert StepAt(states, events, j);
    StepBounds(states[j], events[j], states[j + 1], events[i].ask.Price(), events[i].bid.Price());
  }

  // ---------------------------------------------------------------------------
  // The order book
  // ---------------------------------------------------------------------------

  datatype Ordering = Less | Equal | Greater

  function Compare(x: nat, y: nat): Ordering {
    if x < y then Less else if x == y then Equal else Greater
  }

  /** `Ord for ToOrder`: the heap's maximum is the lowest price. */
  function CompareTo(x: Order, y: Order): Ordering {
    Compare(y.Price(), x.Price())
  }

  /** `Ord for FromOrder`: the heap's maximum is the highest price. */
  function CompareFrom(x: Order, y: Order): Ordering {
    Compare(x.Price(), y.Price())
  }

  predicate IsCheapest(heap: multiset<Order>, best: Order) {
    best in heap && forall other :: other in heap ==> CompareTo(other, best) != Greater
  }

  lemma {:induction false} CheapestExists(heap: multiset<Order>) returns (best: Order)
    requires heap != multiset{}
    ensures IsCheapest(heap, best)
    decreases |heap|
  {
    var any :| any in heap;
    var others := heap - multiset{any};
    best := any;
    if others != multiset{} {
      var rival := CheapestExists(others);
      best := if CompareTo(rival, any) == Greater then rival else any;
    }
    forall other | other in heap ensures CompareTo(other, best) != Greater {
      assert other == any || other in others;
    }
  }

  predicate IsDearest(heap: multiset<Order>, best: Order) {
    best in heap && forall other :: other in heap ==> CompareFrom(other, best) != Greater
  }

  lemma {:induction false} DearestExists(heap: multiset<Order>) returns (best: Order)
    requires heap != multiset{}
    ensures IsDearest(heap, best)
    decreases |heap|
  {
    var any :| any in heap;
    var others := heap - multiset{any};
    best := any;
    if others != multiset{} {
      var rival := DearestExists(others);
      best := if CompareFrom(rival, any) == Greater then rival else any;
    }
    forall other | other in heap ensures CompareFrom(other, best) != Greater {
      assert other == any || other in others;
    }
  }

  class OrderBook {
    var toAb: multiset<Order>
    var fromAb: multiset<Order>

    function State(): Book
      reads this
    {
      Book(toAb, fromAb)
    }

    constructor ()
      ensures State() == Book(multiset{}, multiset{})
    {
      toAb, fromAb := multiset{}, multiset{};
    }

    method Push(pubkey: Pubkey, info: OrderInfo) returns (check: TradeCheck, ghost event: Event)
      modifies this
      ensures check.DivisionByZero? <==> info.side.Bid? && info.price == 0
      ensures info.side.Ask? ==> (check.Tradeable? <==> info.tokens * info.price % U64_MODULUS >= 1000)
      ensures info.side.Bid? && info.price > 0 ==>
        (check.Tradeable? <==> info.tokens * 1000 % U64_MODULUS >= info.price)
      ensures info.side.Ask? && info.tokens * info.price < U64_MODULUS ==>
        (check.Tradeable? <==> info.tokens * info.price >= 1000)
      ensures info.side.Bid? && info.price > 0 && info.tokens * 1000 < U64_MODULUS ==>
        (check.Tradeable? <==> info.tokens * 1000 >= info.price)
      ensures event == if check.Tradeable? then Pushed(Order(pubkey, info)) else Rejected
      ensures Step(old(State()), event, State())
    {
      check, event := CheckTrade(info.side, info.tokens, info.price), Rejected;
      TradeableIff(info.side, info.tokens, info.price);
      FittingTradeIff(info.side, info.tokens, info.price);
      if check.Tradeable? {
        event := Pushed(Order(pubkey, info));
        match info.side
        case Ask => toAb := toAb + multiset{Order(pubkey, info)};
        case Bid => fromAb := fromAb + multiset{Order(pubkey, info)};
      }
    }

    /** The two heads of the heaps, when both exist. */
    method Peek() returns (heads: Option<Swap>)
      ensures heads.None? <==> toAb == multiset{} || fromAb == multiset{}
      ensures heads.Some? ==> heads.value.0 in toAb && heads.value.1 in fromAb
      ensures heads.Some? ==> forall other :: other in toAb ==> heads.value.0.Price() <= other.Price()
      ensures heads.Some? ==> forall other :: other in fromAb ==> other.Price() <= heads.value.1.Price()
    {
      if toAb == multiset{} || fromAb == multiset{} {
        return None;
      }
      ghost var cheapest := CheapestExists(toAb);
      ghost var dearest := DearestExists(fromAb);
      assert IsCheapest(toAb, cheapest) && IsDearest(fromAb, dearest);
      var to :| to in toAb && IsCheapest(toAb, to);
      var from :| from in fromAb && IsDearest(fromAb, from);
      assert IsCheapest(toAb, to) && IsDearest(fromAb, from);
      heads := Some((to, from));
    }

    /** Pops the best pair, or nothing exactly when no ask and bid of the book are viable. */
    method Pop() returns (pair: Option<Swap>, ghost event: Event)
      modifies this
      ensures event == if pair.Some? then Swapped(pair.value.0, pair.value.1) else NoSwap
      ensures pair.Some? <==> old(State()).Viable()
      ensures Step(old(State()), event, State())
    {
      event := NoSwap;
      var heads := Peek();
      if heads.None? {
        return None, event;
      }
      var (to, from) := heads.value;
      if from.Price() < to.Price() {
        return None, event;
      }
      toAb := toAb - multiset{to};
      fromAb := fromAb - multiset{from};
      pair, event := Some((to, from)), Swapped(to, from);
    }

    method GetNumOutstanding() returns (asks: nat, bids: nat)
      ensures asks == |State().asks| && bids == |State().bids|
    {
      asks, bids := |toAb|, |fromAb|;
    }
  }

  /** The swapper's loop: pop until nothing is viable or `batchSize` swaps (at least one) are collected. */
  method Drain(book: OrderBook, batchSize: nat) returns (swaps: seq<Swap>)
    modifies book
    ensures GreedyRun(old(book.State()), swaps, book.State())
    ensures |swaps| <= if batchSize == 0 then 1 else batchSize
    ensures |swaps| == (if batchSize == 0 then 1 else batchSize) || !book.State().Viable()
    ensures forall pairs :: DisjointPairs(old(book.State()), pairs) && |pairs| <= batchSize
              ==> Spread(pairs) <= Spread(swaps)
  {
    ghost var start := book.State();
    swaps := [];
    var done := false;
    while !done
      invariant GreedyRun(start, swaps, book.State())
      invariant |swaps| <= if batchSize == 0 then 1 else batchSize
      invariant !done ==> |swaps| < if batchSize == 0 then 1 else batchSize
      invariant done ==> |swaps| == (if batchSize == 0 then 1 else batchSize) || !book.State().Viable()
      decreases !done, batchSize - |swaps|
    {
      ghost var before := book.State();
      var pair, event := book.Pop();
      if pair.None? {
        done := true;
      } else {
        GreedyExtend(start, swaps, before, pair.value.0, pair.value.1);
        swaps := swaps + [pair.value];
        if |swaps| >= batchSize {
          done := true;
        }
      }
    }
    forall pairs | DisjointPairs(start, pairs) && |pairs| <= batchSize ensures Spread(pairs) <= Spread(swaps) {
      GreedyIsOptimal(start, swaps, book.State(), if batchSize == 0 then 1 else batchSize, pairs);
    }
  }
}
