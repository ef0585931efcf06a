/**
 The matching loops that the trading and the lending engine share (XDCx/order_processor.go,
 XDCxlending/order_processor.go: processMarketOrder, processLimitOrder, processOrderList).

 A lending book is the same structure with interest rates for prices: a borrower takes the lowest
 investing rate as a bid takes the lowest ask. The engines differ in how one match is settled, so the
 settlement of a taker against a maker is a parameter here.
 */
module Matching {
  import opened Options
  import opened Sums

  datatype Side = Bid | Ask
  {
    function Other(): Side { if Bid? then Ask else Bid }
  }

  /** A resting or incoming order; data is what the settlement looks at. */
  datatype Order<P> = Order(id: nat, side: Side, price: nat, quantity: nat, data: P)

  /** The resting orders of one book by id; ids grow, so the smallest id of a level is its oldest order. */
  type Book<P> = map<nat, Order<P>>

  /**
   What settling up to a quantity of a maker comes to: an error that undoes the whole order, a trade too small
   to pay its fees, or a traded quantity, possibly zero, with a request to reject the maker.
   */
  datatype Settlement<S> =
    | Failure
    | TooSmall(traded: nat, rejectMaker: bool)
    | Settled(state: S, traded: nat, rejectMaker: bool)

  type Settler<!S, !P> = (S, Order<P>, Order<P>, nat) -> Settlement<S>

  /** Asked for some quantity, a settlement never trades more, and strictly less when it rejects the maker. */
  ghost predicate Honest<S(!new), P(!new)>(settle: Settler<S, P>) {
    forall s: S, taker: Order<P>, maker: Order<P>, q: nat :: HonestAt(settle, s, taker, maker, q)
  }

  ghost predicate HonestAt<S, P>(settle: Settler<S, P>, s: S, taker: Order<P>, maker: Order<P>, q: nat) {
    var r := settle(s, taker, maker, q);
    q > 0 && !r.Failure? ==> r.traded <= q && (r.rejectMaker ==> r.traded < q)
  }

  datatype Fill = Fill(maker: nat, price: nat, quantity: nat)

  /**
   The state of a matching loop: what rests, what was settled, how much of the taker is left, what was filled,
   which makers were rejected with how much left, and how much of the taker was rejected.
   */
  datatype Run<S, P> = Run(
    book: Book<P>,
    state: S,
    quantity: nat,
    fills: seq<Fill>,
    rejects: seq<Fill>,
    dropped: nat)

  // ----- reading the book

  ghost function Level<P>(book: Book<P>, side: Side, price: nat): set<nat> {
    set id | id in book && book[id].side == side && book[id].price == price
  }

  /** Whether price a is at least as good for a taker as price b, on the given side of the makers. */
  predicate NoWorse(makers: Side, a: nat, b: nat) {
    if makers == Ask then a <= b else a >= b
  }

  ghost predicate IsBest<P>(book: Book<P>, side: Side, price: nat) {
    && (exists id :: id in book && book[id].side == side && book[id].price == price)
    && (forall id | id in book && book[id].side == side :: NoWorse(side, price, book[id].price))
  }

  /** GetBestAskPrice and GetBestBidPrice; zero stands for an empty side. */
  ghost function BestPrice<P>(book: Book<P>, side: Side): nat {
    if exists p: nat :: IsBest(book, side, p) then var p: nat :| IsBest(book, side, p); p else 0
  }

  ghost predicate IsOldest<P>(book: Book<P>, side: Side, price: nat, id: nat) {
    && id in Level(book, side, price)
    && forall other | other in Level(book, side, price) :: id <= other
  }

  ghost function Oldest<P>(book: Book<P>, side: Side, price: nat): nat {
    if exists id: nat :: IsOldest(book, side, price, id) then var id: nat :| IsOldest(book, side, price, id); id else 0
  }

  lemma {:induction false} OldestExists(ids: set<nat>) returns (id: nat)
    requires ids != {}
    ensures id in ids && forall other | other in ids :: id <= other
    decreases ids
  {
    var first :| first in ids;
    id := first;
    if ids != {first} {
      var least := OldestExists(ids - {first});
      if least < first { id := least; }
    }
    assert forall other | other in ids :: other == first || other in ids - {first};
  }

  lemma OldestIs<P>(book: Book<P>, side: Side, price: nat)
    requires Level(book, side, price) != {}
    ensures IsOldest(book, side, price, Oldest(book, side, price))
  {
    var id := OldestExists(Level(book, side, price));
    assert IsOldest(book, side, price, id);
  }

  /** Every resting order is stored under its id with a positive quantity and price. */
  ghost predicate Resting<P>(book: Book<P>) {
    forall id | id in book :: book[id].id == id && book[id].quantity > 0 && book[id].price > 0
  }

  // ----- changing the book

  function Reduce<P>(book: Book<P>, id: nat, amount: nat): Book<P>
    requires id in book && amount <= book[id].quantity
  {
    if amount == book[id].quantity then book - {id}
    else book[id := book[id].(quantity := book[id].quantity - amount)]
  }

  // ----- one level

  datatype Next<S, P> = Continue(run: Run<S, P>) | Stop(run: Run<S, P>) | Abort(run: Run<S, P>)

  /** How a matching loop ends: with an error it stops where the settlement failed. */
  datatype Matched<S, P> = Done(run: Run<S, P>) | Failed(run: Run<S, P>)

  /** One round of processOrderList against the oldest maker of a level. */
  ghost function Round<S(!new), P(!new)>(
      run: Run<S, P>, taker: Order<P>, id: nat, settle: Settler<S, P>): (n: Next<S, P>)
    requires Honest(settle)
    requires run.quantity > 0 && id in run.book && run.book[id].quantity > 0
  {
    var maker := run.book[id];
    var most := if run.quantity <= maker.quantity then run.quantity else maker.quantity;
    assert HonestAt(settle, run.state, taker, maker, most);
    match settle(run.state, taker, maker, most)
    case Failure => Abort(run)
    case TooSmall(traded, rejectMaker) =>
      if traded == most then
        if run.quantity == maker.quantity then Stop(RejectMaker(RejectTaker(run), id))
        else if run.quantity < maker.quantity then Stop(RejectTaker(run))
        else Continue(RejectMaker(run, id))
      else if rejectMaker then Continue(RejectMaker(run, id))
      else Stop(RejectTaker(run))
    case Settled(state, traded, rejectMaker) =>
      if traded == 0 && !rejectMaker then Stop(RejectTaker(run.(state := state)))
      else
        var after := if traded > 0 then Take(run.(state := state), id, traded) else run.(state := state);
        Continue(if rejectMaker then RejectMaker(after, id) else after)
  }

  function RejectTaker<S, P>(run: Run<S, P>): Run<S, P> {
    run.(quantity := 0, dropped := run.dropped + run.quantity)
  }

  function RejectMaker<S, P>(run: Run<S, P>, id: nat): Run<S, P>
    requires id in run.book
  {
    run.(book := run.book - {id}, rejects := run.rejects + [Fill(id, run.book[id].price, run.book[id].quantity)])
  }

  function Take<S, P>(run: Run<S, P>, id: nat, traded: nat): Run<S, P>
    requires id in run.book && traded <= run.quantity && traded <= run.book[id].quantity
  {
    run.(book := Reduce(run.book, id, traded), quantity := run.quantity - traded,
         fills := run.fills + [Fill(id, run.book[id].price, traded)])
  }

  /**
   Who leaves in a round. A match too small to pay its fees takes off whichever orders it would have used up, and a
   smaller one the party that was short; a settled one the taker when nothing could be traded, and the maker when it
   is used up or could not pay.
   */
  lemma RoundRejects<S(!new), P(!new)>(run: Run<S, P>, taker: Order<P>, id: nat, settle: Settler<S, P>)
    requires Honest(settle) && run.quantity > 0 && id in run.book && run.book[id].quantity > 0
    ensures var maker := run.book[id];
      var most := if run.quantity <= maker.quantity then run.quantity else maker.quantity;
      var r := settle(run.state, taker, maker, most);
      var n := Round(run, taker, id, settle);
      && (n.Abort? <==> r.Failure?)
      && (!r.Failure? ==>
            && (n.run.dropped > run.dropped <==>
                  if r.Settled? then r.traded == 0 && !r.rejectMaker
                  else if r.traded == most then run.quantity == most
                  else !r.rejectMaker)
            && (id !in n.run.book <==>
                  if r.Settled? then r.rejectMaker || r.traded == maker.quantity
                  else if r.traded == most then maker.quantity == most
                  else r.rejectMaker)
            && n.run.fills == (if r.Settled? && r.traded > 0 then run.fills + [Fill(id, maker.price, r.traded)]
                               else run.fills)
            && n.run.state == (if r.Settled? then r.state else run.state)
            && (n.Stop? <==> n.run.dropped > run.dropped))
  {
    hide Honest;
    var maker := run.book[id];
    var most := if run.quantity <= maker.quantity then run.quantity else maker.quantity;
    HonestSomewhere(settle, run.state, taker, maker, most);
  }

  /** processOrderList: rounds against one level until the taker is done or the level is empty. */
  ghost function MatchLevel<S(!new), P(!new)>(
      run: Run<S, P>, taker: Order<P>, makers: Side, price: nat, settle: Settler<S, P>): (r: Matched<S, P>)
    requires Honest(settle) && Resting(run.book)
    decreases |run.book|, run.quantity
  {
    if run.quantity == 0 || Level(run.book, makers, price) == {} then Done(run)
    else
      var id := Oldest(run.book, makers, price);
      OldestInLevel(run.book, makers, price);
      RoundAdvances(run, taker, id, makers, price, settle);
      match Round(run, taker, id, settle)
      case Abort(at) => Failed(at)
      case Stop(after) => Done(after)
      case Continue(after) => MatchLevel(after, taker, makers, price, settle)
  }

  // ----- what a round keeps

  ghost function Volume<P>(book: Book<P>): int {
    Sum(book.Keys, (id: nat) => QuantityOf(book, id))
  }

  ghost function QuantityOf<P>(book: Book<P>, id: nat): int {
    if id in book then book[id].quantity else 0
  }

  ghost function Total(fills: seq<Fill>): nat {
    if fills == [] then 0 else Total(fills[..|fills| - 1]) + fills[|fills| - 1].quantity
  }

  lemma TotalAppend(fills: seq<Fill>, f: Fill)
    ensures Total(fills + [f]) == Total(fills) + f.quantity
  {
    assert (fills + [f])[..|fills|] == fills;
  }

  /** What rests plus what was filled plus what was taken off the book. */
  ghost function BookTotal<S, P>(run: Run<S, P>): int {
    Volume(run.book) + Total(run.fills) + Total(run.rejects)
  }

  /** What is left of the taker plus what was filled plus what was rejected. */
  ghost function TakerTotal<S, P>(run: Run<S, P>): int {
    run.quantity + Total(run.fills) + run.dropped
  }

  /** Nothing outside one level of the makers changes, and orders there only shrink or leave. */
  ghost predicate OnlyLevel<P>(a: Book<P>, b: Book<P>, makers: Side, price: nat) {
    && b.Keys <= a.Keys
    && (forall id | id in b :: b[id] == a[id].(quantity := b[id].quantity) && 0 < b[id].quantity <= a[id].quantity)
    && (forall id | id in a && !(a[id].side == makers && a[id].price == price) :: id in b && b[id] == a[id])
  }

  /** The fills grow by fills of makers that rested on the level. */
  ghost predicate FillsAt<P>(book: Book<P>, a: seq<Fill>, b: seq<Fill>, makers: Side, price: nat) {
    && |a| <= |b| && b[..|a|] == a
    && forall i | |a| <= i < |b| :: b[i].price == price && b[i].quantity > 0 && b[i].maker in Level(book, makers, price)
  }

  /** The progress of a matching loop on one level: both totals are kept and only the level changes. */
  ghost predicate Advances<S, P>(a: Run<S, P>, b: Run<S, P>, makers: Side, price: nat) {
    && BookTotal(b) == BookTotal(a) && TakerTotal(b) == TakerTotal(a)
    && OnlyLevel(a.book, b.book, makers, price) && FillsAt(a.book, a.fills, b.fills, makers, price)
    && b.quantity <= a.quantity
  }

  lemma VolumeRemove<P>(book: Book<P>, id: nat)
    requires id in book
    ensures Volume(book - {id}) == Volume(book) - book[id].quantity
    ensures |book - {id}| == |book| - 1
  {
    var rest := book - {id};
    assert rest.Keys == book.Keys - {id};
    SumRemove(book.Keys, (i: nat) => QuantityOf(book, i), id);
    SumCongruence(rest.Keys, (i: nat) => QuantityOf(book, i), (i: nat) => QuantityOf(rest, i));
    assert |rest.Keys| == |rest| && |book.Keys| == |book|;
  }

  lemma VolumeReduce<P>(book: Book<P>, id: nat, amount: nat)
    requires id in book && amount <= book[id].quantity
    ensures Volume(Reduce(book, id, amount)) == Volume(book) - amount
    ensures |Reduce(book, id, amount)| <= |book|
  {
    if amount == book[id].quantity {
      VolumeRemove(book, id);
    } else {
      var after := Reduce(book, id, amount);
      assert after.Keys == book.Keys;
      SumUpdate(book.Keys, (i: nat) => QuantityOf(book, i), (i: nat) => QuantityOf(after, i), id);
      assert |after.Keys| == |after| && |book.Keys| == |book|;
    }
  }

  lemma RejectTakerAdvances<S, P>(run: Run<S, P>, makers: Side, price: nat)
    requires Resting(run.book)
    ensures Advances(run, RejectTaker(run), makers, price)
  {
  }

  lemma RejectMakerAdvances<S, P>(run: Run<S, P>, id: nat, makers: Side, price: nat)
    requires Resting(run.book) && id in Level(run.book, makers, price)
    ensures Advances(run, RejectMaker(run, id), makers, price) && Resting(RejectMaker(run, id).book)
    ensures |RejectMaker(run, id).book| < |run.book|
  {
    VolumeRemove(run.book, id);
    TotalAppend(run.rejects, Fill(id, run.book[id].price, run.book[id].quantity));
  }

  lemma TakeAdvances<S, P>(run: Run<S, P>, id: nat, traded: nat, makers: Side, price: nat)
    requires Resting(run.book) && id in Level(run.book, makers, price)
    requires 0 < traded <= run.quantity && traded <= run.book[id].quantity
    ensures Advances(run, Take(run, id, traded), makers, price) && Resting(Take(run, id, traded).book)
    ensures |Take(run, id, traded).book| <= |run.book|
    ensures traded < run.book[id].quantity ==> id in Level(Take(run, id, traded).book, makers, price)
  {
    VolumeReduce(run.book, id, traded);
    TotalAppend(run.fills, Fill(id, run.book[id].price, traded));
  }

  lemma OnlyLevelTransitive<P>(a: Book<P>, b: Book<P>, c: Book<P>, makers: Side, price: nat)
    requires OnlyLevel(a, b, makers, price) && OnlyLevel(b, c, makers, price)
    ensures OnlyLevel(a, c, makers, price)
    ensures Level(b, makers, price) <= Level(a, makers, price)
  {
  }

  lemma FillsAtTransitive<P>(
      book: Book<P>, later: Book<P>, a: seq<Fill>, b: seq<Fill>, c: seq<Fill>, makers: Side, price: nat)
    requires FillsAt(book, a, b, makers, price) && FillsAt(later, b, c, makers, price)
    requires Level(later, makers, price) <= Level(book, makers, price)
    ensures FillsAt(book, a, c, makers, price)
  {
    hide Level;
    assert c[..|a|] == c[..|b|][..|a|];
    forall i | |a| <= i < |c|
      ensures c[i].price == price && c[i].quantity > 0 && c[i].maker in Level(book, makers, price)
    {
      if i < |b| {
        assert c[i] == c[..|b|][i];
      }
    }
  }

  lemma AdvancesTransitive<S, P>(a: Run<S, P>, b: Run<S, P>, c: Run<S, P>, makers: Side, price: nat)
    requires Advances(a, b, makers, price) && Advances(b, c, makers, price)
    ensures Advances(a, c, makers, price)
  {
    hide BookTotal, TakerTotal, OnlyLevel, FillsAt, Level;
    OnlyLevelTransitive(a.book, b.book, c.book, makers, price);
    FillsAtTransitive(a.book, b.book, a.fills, b.fills, c.fills, makers, price);
  }

  lemma StateAside<S, P>(run: Run<S, P>, state: S, makers: Side, price: nat)
    requires Resting(run.book)
    ensures Advances(run, run.(state := state), makers, price)
  {
  }

  /** A round keeps both totals, touches one level only, and makes progress. */
  lemma RoundAdvances<S(!new), P(!new)>(
      run: Run<S, P>, taker: Order<P>, id: nat, makers: Side, price: nat, settle: Settler<S, P>)
    requires Honest(settle) && Resting(run.book)
    requires run.quantity > 0 && id in Level(run.book, makers, price)
    ensures var n := Round(run, taker, id, settle); !n.Abort? ==>
      && Advances(run, n.run, makers, price) && Resting(n.run.book)
      && |n.run.book| <= |run.book|
      && (n.Stop? ==> n.run.quantity == 0)
      && (n.Continue? ==> |n.run.book| < |run.book| || n.run.quantity < run.quantity)
  {
    hide Advances, RejectMaker, RejectTaker, Take;
    var maker := run.book[id];
    var most := if run.quantity <= maker.quantity then run.quantity else maker.quantity;
    assert HonestAt(settle, run.state, taker, maker, most);
    match settle(run.state, taker, maker, most)
    case Failure =>
    case TooSmall(traded, rejectMaker) =>
      RejectTakerRound(run, id, makers, price);
      RejectMakerAdvances(run, id, makers, price);
    case Settled(state, traded, rejectMaker) =>
      var s := run.(state := state);
      StateAside(run, state, makers, price);
      RejectTakerRound(s, id, makers, price);
      AdvancesTransitive(run, s, RejectTaker(s), makers, price);
      if traded > 0 {
        TakeAdvances(s, id, traded, makers, price);
        TakeLess(s, id, traded);
        AdvancesTransitive(run, s, Take(s, id, traded), makers, price);
        if rejectMaker {
          RejectMakerAdvances(Take(s, id, traded), id, makers, price);
          RejectMakerQuantity(Take(s, id, traded), id);
          AdvancesTransitive(run, Take(s, id, traded), RejectMaker(Take(s, id, traded), id), makers, price);
        }
      } else if rejectMaker {
        RejectMakerAdvances(s, id, makers, price);
        AdvancesTransitive(run, s, RejectMaker(s, id), makers, price);
      }
  }

  lemma TakeLess<S, P>(run: Run<S, P>, id: nat, traded: nat)
    requires id in run.book && 0 < traded <= run.quantity && traded <= run.book[id].quantity
    ensures Take(run, id, traded).quantity == run.quantity - traded
  {
  }

  lemma RejectMakerQuantity<S, P>(run: Run<S, P>, id: nat)
    requires id in run.book
    ensures RejectMaker(run, id).quantity == run.quantity
  {
  }

  lemma RejectTakerRound<S, P>(run: Run<S, P>, id: nat, makers: Side, price: nat)
    requires Resting(run.book) && id in Level(run.book, makers, price)
    ensures Advances(run, RejectTaker(run), makers, price)
    ensures RejectTaker(run).quantity == 0 && RejectTaker(run).book == run.book
    ensures Advances(run, RejectMaker(RejectTaker(run), id), makers, price)
    ensures RejectMaker(RejectTaker(run), id).quantity == 0
      && RejectMaker(RejectTaker(run), id).book == RejectMaker(run, id).book
  {
    RejectTakerAdvances(run, makers, price);
    RejectMakerAdvances(RejectTaker(run), id, makers, price);
    AdvancesTransitive(run, RejectTaker(run), RejectMaker(RejectTaker(run), id), makers, price);
  }

  /**
   A matched level: both totals are kept, only the level changes, and if the taker still wants more the level is
   empty.
   */
  lemma {:induction false} LevelAdvances<S(!new), P(!new)>(
      run: Run<S, P>, taker: Order<P>, makers: Side, price: nat, settle: Settler<S, P>)
    requires Honest(settle) && Resting(run.book)
    ensures var r := MatchLevel(run, taker, makers, price, settle); r.Done? ==>
      && Advances(run, r.run, makers, price) && Resting(r.run.book)
      && (r.run.quantity > 0 ==> Level(r.run.book, makers, price) == {})
    decreases |run.book|, run.quantity
  {
    hide Round, Advances, Level, Oldest;
    if run.quantity == 0 || Level(run.book, makers, price) == {} {
      StateAside(run, run.state, makers, price);
    } else {
      var id := Oldest(run.book, makers, price);
      OldestInLevel(run.book, makers, price);
      RoundAdvances(run, taker, id, makers, price, settle);
      match Round(run, taker, id, settle)
      case Abort(at) =>
      case Stop(after) =>
      case Continue(after) =>
        LevelAdvances(after, taker, makers, price, settle);
        var r := MatchLevel(after, taker, makers, price, settle);
        if r.Done? {
          AdvancesTransitive(run, after, r.run, makers, price);
        }
    }
  }

  lemma OldestInLevel<P>(book: Book<P>, side: Side, price: nat)
    requires Level(book, side, price) != {}
    ensures Oldest(book, side, price) in Level(book, side, price) && Oldest(book, side, price) in book
  {
    OldestIs(book, side, price);
  }

  // ----- the whole book

  /** The loops of processMarketOrder (no limit) and processLimitOrder: level by level from the best price on. */
  ghost function MatchBook<S(!new), P(!new)>(
      run: Run<S, P>, taker: Order<P>, limit: Option<nat>, settle: Settler<S, P>): (r: Matched<S, P>)
    requires Honest(settle) && Resting(run.book)
    decreases |run.book|, run.quantity
  {
    var makers := taker.side.Other();
    var best := BestPrice(run.book, makers);
    if run.quantity == 0 || best == 0 || (limit.Some? && !NoWorse(makers, best, limit.value)) then Done(run)
    else
      LevelAdvances(run, taker, makers, best, settle);
      match MatchLevel(run, taker, makers, best, settle)
      case Failed(at) => Failed(at)
      case Done(after) =>
        LevelShrinks(run, after, makers, best);
        MatchBook(after, taker, limit, settle)
  }

  lemma {:induction false} BestExists<P>(book: Book<P>, side: Side, ids: set<nat>) returns (best: nat)
    requires ids != {} && forall id | id in ids :: id in book && book[id].side == side
    ensures best in ids && forall id | id in ids :: NoWorse(side, book[best].price, book[id].price)
    decreases ids
  {
    var first :| first in ids;
    best := first;
    if ids != {first} {
      var other := BestExists(book, side, ids - {first});
      if NoWorse(side, book[other].price, book[first].price) { best := other; }
    }
    assert forall id | id in ids :: id == first || id in ids - {first};
  }

  /** The best price of a side with resting orders is the price of one of them, and no other is better. */
  lemma BestIs<P>(book: Book<P>, side: Side)
    requires Resting(book)
    ensures BestPrice(book, side) > 0 <==> exists id :: id in book && book[id].side == side
    ensures BestPrice(book, side) > 0 ==> IsBest(book, side, BestPrice(book, side))
  {
    var ids := set id | id in book && book[id].side == side;
    if id :| id in book && book[id].side == side {
      assert id in ids;
      var best := BestExists(book, side, ids);
      assert IsBest(book, side, book[best].price);
    }
  }

  lemma LevelShrinks<S, P>(run: Run<S, P>, after: Run<S, P>, makers: Side, best: nat)
    requires Resting(run.book) && run.quantity > 0
    requires best == BestPrice(run.book, makers) && best > 0
    requires Advances(run, after, makers, best) && (after.quantity > 0 ==> Level(after.book, makers, best) == {})
    ensures |after.book| <= |run.book|
    ensures |after.book| < |run.book| || after.quantity < run.quantity
  {
    hide BookTotal, TakerTotal;
    BestIs(run.book, makers);
    SubsetSize(after.book.Keys, run.book.Keys);
    assert |after.book.Keys| == |after.book| && |run.book.Keys| == |run.book|;
    if after.quantity > 0 {
      var id :| id in run.book && run.book[id].side == makers && run.book[id].price == best;
      assert id !in Level(after.book, makers, best);
      assert id !in after.book;
    }
  }

  lemma SubsetSize<T>(a: set<T>, b: set<T>)
    requires a <= b
    ensures |a| <= |b| && (a != b ==> |a| < |b|)
  {
    assert b == a + (b - a);
    assert |b| == |a| + |b - a|;
  }

  /**
   The progress of a taker through the book: both totals are kept; only makers within the limit change; the fills
   go from the best price on, never beyond the limit, and a level is only reached when no better one is left.
   */
  ghost predicate Sweeps<S, P>(a: Run<S, P>, b: Run<S, P>, makers: Side, limit: Option<nat>) {
    && BookTotal(b) == BookTotal(a) && TakerTotal(b) == TakerTotal(a) && b.quantity <= a.quantity
    && b.book.Keys <= a.book.Keys
    && (forall id | id in b.book ::
        b.book[id] == a.book[id].(quantity := b.book[id].quantity) && 0 < b.book[id].quantity <= a.book[id].quantity)
    && (forall id | id in a.book && !Reachable(makers, limit, a.book[id]) :: id in b.book && b.book[id] == a.book[id])
    && |a.fills| <= |b.fills| && b.fills[..|a.fills|] == a.fills
    && (forall i | |a.fills| <= i < |b.fills| :: FillOf(a.book, b.fills[i], makers, limit))
    && (forall i | |a.fills| <= i < |b.fills| :: NoneBetter(b.book, makers, b.fills[i].price))
    && (forall i, j | |a.fills| <= i < j < |b.fills| :: NoWorse(makers, b.fills[i].price, b.fills[j].price))
  }

  predicate Reachable<P>(makers: Side, limit: Option<nat>, maker: Order<P>) {
    maker.side == makers && (limit.Some? ==> NoWorse(makers, maker.price, limit.value))
  }

  /** A fill trades against a resting maker, at the price of that maker, within the limit. */
  ghost predicate FillOf<P>(book: Book<P>, f: Fill, makers: Side, limit: Option<nat>) {
    f.maker in book && f.quantity > 0 && f.price == book[f.maker].price && Reachable(makers, limit, book[f.maker])
  }

  ghost predicate NoneBetter<P>(book: Book<P>, makers: Side, price: nat) {
    forall id | id in book && book[id].side == makers :: NoWorse(makers, price, book[id].price)
  }

  lemma SweepsNothing<S, P>(run: Run<S, P>, makers: Side, limit: Option<nat>)
    requires Resting(run.book)
    ensures Sweeps(run, run, makers, limit)
  {
  }

  /** A level at the best price, followed by a sweep of the rest, is a sweep. */
  lemma SweepsLevel<S, P>(a: Run<S, P>, m: Run<S, P>, b: Run<S, P>, makers: Side, best: nat, limit: Option<nat>)
    requires Resting(a.book) && IsBest(a.book, makers, best) && (limit.Some? ==> NoWorse(makers, best, limit.value))
    requires Advances(a, m, makers, best) && Sweeps(m, b, makers, limit)
    ensures Sweeps(a, b, makers, limit)
  {
    hide BookTotal, TakerTotal;
    assert b.fills[..|a.fills|] == b.fills[..|m.fills|][..|a.fills|];
    SweptFills(a, m, b, makers, best, limit);
    forall id | id in a.book && !Reachable(makers, limit, a.book[id]) ensures id in b.book && b.book[id] == a.book[id] {
      assert id in m.book && m.book[id] == a.book[id];
    }
  }

  lemma SweptFills<S, P>(a: Run<S, P>, m: Run<S, P>, b: Run<S, P>, makers: Side, best: nat, limit: Option<nat>)
    requires Resting(a.book) && IsBest(a.book, makers, best) && (limit.Some? ==> NoWorse(makers, best, limit.value))
    requires Advances(a, m, makers, best) && Sweeps(m, b, makers, limit)
    ensures forall i | |a.fills| <= i < |b.fills| :: FillOf(a.book, b.fills[i], makers, limit)
    ensures forall i | |a.fills| <= i < |b.fills| :: NoneBetter(b.book, makers, b.fills[i].price)
    ensures forall i, j | |a.fills| <= i < j < |b.fills| :: NoWorse(makers, b.fills[i].price, b.fills[j].price)
  {
    hide BookTotal, TakerTotal;
    forall i | |a.fills| <= i < |m.fills|
      ensures b.fills[i].price == best && b.fills[i].maker in Level(a.book, makers, best) && b.fills[i].quantity > 0
    {
      assert b.fills[i] == b.fills[..|m.fills|][i];
    }
    forall i | |m.fills| <= i < |b.fills|
      ensures FillOf(a.book, b.fills[i], makers, limit) && NoWorse(makers, best, b.fills[i].price)
    {
      assert FillOf(m.book, b.fills[i], makers, limit);
      assert a.book[b.fills[i].maker].price == b.fills[i].price;
    }
  }

  /** What a taker does to the book, and why it stopped. */
  lemma {:induction false} BookSweeps<S(!new), P(!new)>(
      run: Run<S, P>, taker: Order<P>, limit: Option<nat>, settle: Settler<S, P>)
    requires Honest(settle) && Resting(run.book)
    ensures var r := MatchBook(run, taker, limit, settle); var makers := taker.side.Other(); r.Done? ==>
      && Sweeps(run, r.run, makers, limit) && Resting(r.run.book)
      && (r.run.quantity > 0 ==> forall id | id in r.run.book :: !Reachable(makers, limit, r.run.book[id]))
    decreases |run.book|, run.quantity
  {
    hide MatchLevel, Advances, Sweeps, BestPrice, Level, IsBest;
    var makers := taker.side.Other();
    var best := BestPrice(run.book, makers);
    BestIs(run.book, makers);
    if run.quantity == 0 || best == 0 || (limit.Some? && !NoWorse(makers, best, limit.value)) {
      SweepsNothing(run, makers, limit);
      StopsHere(run.book, makers, limit);
    } else {
      LevelAdvances(run, taker, makers, best, settle);
      var r := MatchLevel(run, taker, makers, best, settle);
      if r.Done? {
        LevelShrinks(run, r.run, makers, best);
        BookSweeps(r.run, taker, limit, settle);
        var b := MatchBook(r.run, taker, limit, settle);
        if b.Done? {
          SweepsLevel(run, r.run, b.run, makers, best, limit);
        }
      }
    }
  }

  lemma StopsHere<P>(book: Book<P>, makers: Side, limit: Option<nat>)
    requires Resting(book)
    ensures BestPrice(book, makers) == 0 || (limit.Some? && !NoWorse(makers, BestPrice(book, makers), limit.value)) ==>
      forall id | id in book :: !Reachable(makers, limit, book[id])
  {
    BestIs(book, makers);
  }

  // ----- which makers leave

  /** A maker that is matched before another: at a better price, or older at the same one. */
  predicate Precedes<P>(makers: Side, a: Order<P>, b: Order<P>) {
    (NoWorse(makers, a.price, b.price) && a.price != b.price) || (a.price == b.price && a.id < b.id)
  }

  /** The makers that leave come before all that stay, and of those that stay only the first is reduced. */
  ghost predicate InOrder<P>(a: Book<P>, b: Book<P>, makers: Side) {
    && b.Keys <= a.Keys && (forall id | id in b :: b[id] == a[id].(quantity := b[id].quantity))
    && (forall gone, id | gone in a && gone !in b && id in b && b[id].side == makers ::
        Precedes(makers, a[gone], a[id]))
    && (forall first, id | first in b && b[first] != a[first] && id in b && id != first && b[id].side == makers ::
          Precedes(makers, a[first], a[id]))
  }

  lemma InOrderTransitive<P>(a: Book<P>, m: Book<P>, b: Book<P>, makers: Side)
    requires InOrder(a, m, makers) && InOrder(m, b, makers)
    ensures InOrder(a, b, makers)
  {
  }

  lemma RoundInOrder<S(!new), P(!new)>(
      run: Run<S, P>, taker: Order<P>, makers: Side, price: nat, settle: Settler<S, P>)
    requires Honest(settle) && Resting(run.book) && run.quantity > 0
    requires Level(run.book, makers, price) != {} && NoneBetter(run.book, makers, price)
    ensures var id := Oldest(run.book, makers, price);
      id in run.book && InOrder(run.book, Round(run, taker, id, settle).run.book, makers)
  {
    var id := Oldest(run.book, makers, price);
    OldestIs(run.book, makers, price);
    var maker := run.book[id];
    HonestSomewhere(settle, run.state, taker, maker, if run.quantity <= maker.quantity then run.quantity
        else maker.quantity);
    forall other | other in run.book && other != id && run.book[other].side == makers
      ensures Precedes(makers, maker, run.book[other])
    {
      assert run.book[other].price == price ==> other in Level(run.book, makers, price);
    }
    hide Honest;
    var after := Round(run, taker, id, settle).run.book;
    assert after == run.book || after == run.book - {id}
      || (id in after && after == run.book[id := maker.(quantity := after[id].quantity)]);
  }

  lemma {:induction false} LevelInOrder<S(!new), P(!new)>(
      run: Run<S, P>, taker: Order<P>, makers: Side, price: nat, settle: Settler<S, P>)
    requires Honest(settle) && Resting(run.book) && NoneBetter(run.book, makers, price)
    ensures InOrder(run.book, MatchLevel(run, taker, makers, price, settle).run.book, makers)
    decreases |run.book|, run.quantity
  {
    hide Round, Honest, Advances, Level, Oldest, Precedes;
    if run.quantity > 0 && Level(run.book, makers, price) != {} {
      var id := Oldest(run.book, makers, price);
      OldestInLevel(run.book, makers, price);
      RoundAdvances(run, taker, id, makers, price, settle);
      RoundInOrder(run, taker, makers, price, settle);
      var n := Round(run, taker, id, settle);
      if n.Continue? {
        LevelInOrder(n.run, taker, makers, price, settle);
        InOrderTransitive(run.book, n.run.book, MatchLevel(n.run, taker, makers, price, settle).run.book, makers);
      }
    }
  }

  /** Price-time priority: whatever the settlements do, the makers leave in the order of the book. */
  lemma {:induction false} BookInOrder<S(!new), P(!new)>(
      run: Run<S, P>, taker: Order<P>, limit: Option<nat>, settle: Settler<S, P>)
    requires Honest(settle) && Resting(run.book)
    ensures InOrder(run.book, MatchBook(run, taker, limit, settle).run.book, taker.side.Other())
    decreases |run.book|, run.quantity
  {
    hide MatchLevel, Honest, Advances, BestPrice, Level, Precedes;
    var makers := taker.side.Other();
    var best := BestPrice(run.book, makers);
    BestIs(run.book, makers);
    if run.quantity > 0 && best != 0 && (limit.Some? ==> NoWorse(makers, best, limit.value)) {
      LevelInOrder(run, taker, makers, best, settle);
      LevelAdvances(run, taker, makers, best, settle);
      var r := MatchLevel(run, taker, makers, best, settle);
      if r.Done? {
        LevelShrinks(run, r.run, makers, best);
        BookInOrder(r.run, taker, limit, settle);
        InOrderTransitive(run.book, r.run.book, MatchBook(r.run, taker, limit, settle).run.book, makers);
      }
    }
  }

  // ----- a rejected taker is done

  /** What was rejected of the taker was all that was left of it. */
  predicate RejectedWhole<S, P>(run: Run<S, P>) {
    run.dropped > 0 ==> run.quantity == 0
  }

  lemma {:induction false} LevelRejectsWhole<S(!new), P(!new)>(
      run: Run<S, P>, taker: Order<P>, makers: Side, price: nat, settle: Settler<S, P>)
    requires Honest(settle) && Resting(run.book) && RejectedWhole(run)
    ensures RejectedWhole(MatchLevel(run, taker, makers, price, settle).run)
    decreases |run.book|, run.quantity
  {
    hide Round, Honest, BookTotal, TakerTotal, FillsAt, OnlyLevel;
    if run.quantity > 0 && Level(run.book, makers, price) != {} {
      var id := Oldest(run.book, makers, price);
      OldestInLevel(run.book, makers, price);
      RoundAdvances(run, taker, id, makers, price, settle);
      RoundRejects(run, taker, id, settle);
      var n := Round(run, taker, id, settle);
      if n.Continue? {
        LevelRejectsWhole(n.run, taker, makers, price, settle);
      } else if n.Abort? {
        AbortsUnchanged(run, taker, id, settle);
      }
    }
  }

  lemma AbortsUnchanged<S(!new), P(!new)>(run: Run<S, P>, taker: Order<P>, id: nat, settle: Settler<S, P>)
    requires Honest(settle) && run.quantity > 0 && id in run.book && run.book[id].quantity > 0
    ensures Round(run, taker, id, settle).Abort? ==> Round(run, taker, id, settle).run == run
  {
    hide Honest;
    var maker := run.book[id];
    HonestSomewhere(settle, run.state, taker, maker, if run.quantity <= maker.quantity then run.quantity
        else maker.quantity);
  }

  lemma {:induction false} BookRejectsWhole<S(!new), P(!new)>(
      run: Run<S, P>, taker: Order<P>, limit: Option<nat>, settle: Settler<S, P>)
    requires Honest(settle) && Resting(run.book) && RejectedWhole(run)
    ensures RejectedWhole(MatchBook(run, taker, limit, settle).run)
    decreases |run.book|, run.quantity
  {
    hide MatchLevel, Honest, BookTotal, TakerTotal, FillsAt, OnlyLevel;
    var makers := taker.side.Other();
    var best := BestPrice(run.book, makers);
    if run.quantity == 0 || best == 0 || (limit.Some? && !NoWorse(makers, best, limit.value)) {
    } else {
      LevelRejectsWhole(run, taker, makers, best, settle);
      LevelAdvances(run, taker, makers, best, settle);
      var r := MatchLevel(run, taker, makers, best, settle);
      if r.Done? {
        LevelShrinks(run, r.run, makers, best);
        BookRejectsWhole(r.run, taker, limit, settle);
      }
    }
  }

  // ----- what every settlement keeps, the matching keeps

  /** A property of the state and of the number of fills that settling two fitting orders keeps. */
  ghost predicate SettleKeeps<S(!new), P(!new)>(settle: Settler<S, P>, inv: (S, nat) -> bool, fit: P -> bool) {
    forall s: S, taker: Order<P>, maker: Order<P>, q: nat ::
      fit(taker.data) && fit(maker.data) ==> KeptAt(inv, s, settle(s, taker, maker, q))
  }

  ghost predicate KeptAt<S>(inv: (S, nat) -> bool, s: S, r: Settlement<S>) {
    r.Settled? ==> forall k: nat :: inv(s, k) ==> inv(r.state, if r.traded > 0 then k + 1 else k)
  }

  ghost predicate AllFit<P>(book: Book<P>, fit: P -> bool) {
    forall id | id in book :: fit(book[id].data)
  }

  lemma ShrunkFits<P>(a: Book<P>, b: Book<P>, makers: Side, price: nat, fit: P -> bool)
    requires AllFit(a, fit) && OnlyLevel(a, b, makers, price)
    ensures AllFit(b, fit)
  {
    forall id | id in b ensures fit(b[id].data) {
      assert b[id] == a[id].(quantity := b[id].quantity);
    }
  }

  lemma RoundKeeps<S(!new), P(!new)>(
      run: Run<S, P>, taker: Order<P>, id: nat, settle: Settler<S, P>, inv: (S, nat) -> bool, fit: P -> bool)
    requires Honest(settle) && run.quantity > 0 && id in run.book && run.book[id].quantity > 0
    requires SettleKeeps(settle, inv, fit) && inv(run.state, |run.fills|) && fit(taker.data) && fit(run.book[id].data)
    ensures var after := Round(run, taker, id, settle).run; inv(after.state, |after.fills|)
  {
    hide Honest;
    var maker := run.book[id];
    var most := if run.quantity <= maker.quantity then run.quantity else maker.quantity;
    assert HonestAt(settle, run.state, taker, maker, most) by {
      HonestSomewhere(settle, run.state, taker, maker, most);
    }
    assert KeptAt(inv, run.state, settle(run.state, taker, maker, most));
  }

  lemma HonestSomewhere<S(!new), P(!new)>(settle: Settler<S, P>, s: S, taker: Order<P>, maker: Order<P>, q: nat)
    requires Honest(settle)
    ensures HonestAt(settle, s, taker, maker, q)
  {
  }

  lemma {:induction false} LevelKeeps<S(!new), P(!new)>(
    run: Run<S, P>, taker: Order<P>, makers: Side, price: nat, settle: Settler<S, P>, inv: (S, nat) -> bool,
    fit: P -> bool)
    requires Honest(settle) && Resting(run.book)
    requires SettleKeeps(settle, inv, fit) && inv(run.state, |run.fills|) && fit(taker.data) && AllFit(run.book, fit)
    ensures var after := MatchLevel(run, taker, makers, price, settle).run; inv(after.state, |after.fills|)
    decreases |run.book|, run.quantity
  {
    hide Round, Honest, SettleKeeps, BookTotal, TakerTotal, FillsAt, OnlyLevel;
    if run.quantity > 0 && Level(run.book, makers, price) != {} {
      var id := Oldest(run.book, makers, price);
      OldestInLevel(run.book, makers, price);
      RoundAdvances(run, taker, id, makers, price, settle);
      RoundKeeps(run, taker, id, settle, inv, fit);
      var n := Round(run, taker, id, settle);
      if n.Continue? {
        ShrunkFits(run.book, n.run.book, makers, price, fit);
        LevelKeeps(n.run, taker, makers, price, settle, inv, fit);
      }
    }
  }

  /** What every settlement keeps holds after the matching of an order, whether it ends well or fails. */
  lemma {:induction false} BookKeeps<S(!new), P(!new)>(
    run: Run<S, P>, taker: Order<P>, limit: Option<nat>, settle: Settler<S, P>, inv: (S, nat) -> bool, fit: P -> bool)
    requires Honest(settle) && Resting(run.book)
    requires SettleKeeps(settle, inv, fit) && inv(run.state, |run.fills|) && fit(taker.data) && AllFit(run.book, fit)
    ensures var r := MatchBook(run, taker, limit, settle);
      inv(r.run.state, |r.run.fills|) && (r.Done? ==> AllFit(r.run.book, fit))
    decreases |run.book|, run.quantity
  {
    hide MatchLevel, Honest, SettleKeeps, BookTotal, TakerTotal, FillsAt, OnlyLevel;
    var makers := taker.side.Other();
    var best := BestPrice(run.book, makers);
    if run.quantity == 0 || best == 0 || (limit.Some? && !NoWorse(makers, best, limit.value)) {
    } else {
      LevelKeeps(run, taker, makers, best, settle, inv, fit);
      LevelAdvances(run, taker, makers, best, settle);
      var r := MatchLevel(run, taker, makers, best, settle);
      if r.Done? {
        LevelShrinks(run, r.run, makers, best);
        ShrunkFits(run.book, r.run.book, makers, best, fit);
        BookKeeps(r.run, taker, limit, settle, inv, fit);
      }
    }
  }

  // ----- a match that cannot fail

  /** In a good state the taker's settlement against an agreeable maker does not fail, and leaves a good state. */
  ghost predicate Smooth<S(!new), P(!new)>(settle: Settler<S, P>, taker: Order<P>, good: S -> bool, agrees: P -> bool) {
    forall s: S, maker: Order<P>, q: nat :: good(s) && agrees(maker.data) && maker.price > 0 ==>
      SmoothAt(good, settle(s, taker, maker, q))
  }

  predicate SmoothAt<S>(good: S -> bool, r: Settlement<S>) {
    !r.Failure? && (r.Settled? ==> good(r.state))
  }

  /** Every maker the taker can reach agrees. */
  ghost predicate ReachAgrees<P>(book: Book<P>, makers: Side, limit: Option<nat>, agrees: P -> bool) {
    forall id | id in book && Reachable(makers, limit, book[id]) :: agrees(book[id].data)
  }

  lemma ShrunkAgrees<P>(a: Book<P>, b: Book<P>, makers: Side, price: nat, limit: Option<nat>, agrees: P -> bool)
    requires ReachAgrees(a, makers, limit, agrees) && OnlyLevel(a, b, makers, price)
    ensures ReachAgrees(b, makers, limit, agrees)
  {
    forall id | id in b && Reachable(makers, limit, b[id]) ensures agrees(b[id].data) {
      assert b[id] == a[id].(quantity := b[id].quantity);
      assert Reachable(makers, limit, a[id]);
    }
  }

  lemma RoundIsSmooth<S(!new), P(!new)>(
      run: Run<S, P>, taker: Order<P>, id: nat, settle: Settler<S, P>, good: S -> bool, agrees: P -> bool)
    requires Honest(settle) && run.quantity > 0 && id in run.book && run.book[id].quantity > 0
    requires Smooth(settle, taker, good, agrees) && good(run.state) && agrees(run.book[id].data)
      && run.book[id].price > 0
    ensures var n := Round(run, taker, id, settle); !n.Abort? && good(n.run.state)
  {
    hide Honest;
    var maker := run.book[id];
    var most := if run.quantity <= maker.quantity then run.quantity else maker.quantity;
    HonestSomewhere(settle, run.state, taker, maker, most);
    assert SmoothAt(good, settle(run.state, taker, maker, most));
  }

  lemma {:induction false} LevelIsSmooth<S(!new), P(!new)>(
      run: Run<S, P>, taker: Order<P>, makers: Side, price: nat, limit: Option<nat>, settle: Settler<S, P>,
      good: S -> bool, agrees: P -> bool)
    requires Honest(settle) && Resting(run.book) && (limit.Some? ==> NoWorse(makers, price, limit.value))
    requires Smooth(settle, taker, good, agrees) && good(run.state) && ReachAgrees(run.book, makers, limit, agrees)
    ensures var r := MatchLevel(run, taker, makers, price, settle); r.Done? && good(r.run.state)
    decreases |run.book|, run.quantity
  {
    hide Round, Honest, Smooth, BookTotal, TakerTotal, FillsAt, OnlyLevel;
    if run.quantity > 0 && Level(run.book, makers, price) != {} {
      var id := Oldest(run.book, makers, price);
      OldestInLevel(run.book, makers, price);
      RoundAdvances(run, taker, id, makers, price, settle);
      assert Reachable(makers, limit, run.book[id]);
      RoundIsSmooth(run, taker, id, settle, good, agrees);
      var n := Round(run, taker, id, settle);
      if n.Continue? {
        ShrunkAgrees(run.book, n.run.book, makers, price, limit, agrees);
        LevelIsSmooth(n.run, taker, makers, price, limit, settle, good, agrees);
      }
    }
  }

  /** An order that can only reach agreeable makers is never undone. */
  lemma {:induction false} BookNeverFails<S(!new), P(!new)>(
      run: Run<S, P>, taker: Order<P>, limit: Option<nat>, settle: Settler<S, P>, good: S -> bool, agrees: P -> bool)
    requires Honest(settle) && Resting(run.book)
    requires Smooth(settle, taker, good, agrees) && good(run.state)
      && ReachAgrees(run.book, taker.side.Other(), limit, agrees)
    ensures var r := MatchBook(run, taker, limit, settle); r.Done? && good(r.run.state)
    decreases |run.book|, run.quantity
  {
    hide MatchLevel, Honest, Smooth, BookTotal, TakerTotal, FillsAt, OnlyLevel;
    var makers := taker.side.Other();
    var best := BestPrice(run.book, makers);
    if run.quantity == 0 || best == 0 || (limit.Some? && !NoWorse(makers, best, limit.value)) {
    } else {
      LevelIsSmooth(run, taker, makers, best, limit, settle, good, agrees);
      LevelAdvances(run, taker, makers, best, settle);
      var r := MatchLevel(run, taker, makers, best, settle);
      LevelShrinks(run, r.run, makers, best);
      ShrunkAgrees(run.book, r.run.book, makers, best, limit, agrees);
      BookNeverFails(r.run, taker, limit, settle, good, agrees);
    }
  }

  // ----- the id of a taker is not read

  ghost predicate IgnoresTakerId<S(!new), P(!new)>(settle: Settler<S, P>) {
    forall s: S, taker: Order<P>, maker: Order<P>, q: nat, id: nat ::
      settle(s, taker.(id := id), maker, q) == settle(s, taker, maker, q)
  }

  lemma {:induction false} LevelIgnoresTakerId<S(!new), P(!new)>(
      run: Run<S, P>, taker: Order<P>, id: nat, makers: Side, price: nat, settle: Settler<S, P>)
    requires Honest(settle) && Resting(run.book) && IgnoresTakerId(settle)
    ensures MatchLevel(run, taker.(id := id), makers, price, settle) == MatchLevel(run, taker, makers, price, settle)
    decreases |run.book|, run.quantity
  {
    hide Honest, BookTotal, TakerTotal, FillsAt, OnlyLevel;
    if run.quantity > 0 && Level(run.book, makers, price) != {} {
      var oldest := Oldest(run.book, makers, price);
      OldestInLevel(run.book, makers, price);
      RoundAdvances(run, taker, oldest, makers, price, settle);
      RoundIgnoresTakerId(run, taker, id, oldest, settle);
      hide Round;
      var n := Round(run, taker, oldest, settle);
      if n.Continue? {
        LevelIgnoresTakerId(n.run, taker, id, makers, price, settle);
      }
    }
  }

  lemma RoundIgnoresTakerId<S(!new), P(!new)>(
      run: Run<S, P>, taker: Order<P>, id: nat, oldest: nat, settle: Settler<S, P>)
    requires Honest(settle) && IgnoresTakerId(settle)
    requires run.quantity > 0 && oldest in run.book && run.book[oldest].quantity > 0
    ensures Round(run, taker.(id := id), oldest, settle) == Round(run, taker, oldest, settle)
  {
  }

  lemma {:induction false} BookIgnoresTakerId<S(!new), P(!new)>(
      run: Run<S, P>, taker: Order<P>, id: nat, limit: Option<nat>, settle: Settler<S, P>)
    requires Honest(settle) && Resting(run.book) && IgnoresTakerId(settle)
    ensures MatchBook(run, taker.(id := id), limit, settle) == MatchBook(run, taker, limit, settle)
    decreases |run.book|, run.quantity
  {
    hide MatchLevel, Honest, BookTotal, TakerTotal, FillsAt, OnlyLevel, IgnoresTakerId;
    var makers := taker.side.Other();
    var best := BestPrice(run.book, makers);
    if run.quantity == 0 || best == 0 || (limit.Some? && !NoWorse(makers, best, limit.value)) {
    } else {
      LevelIgnoresTakerId(run, taker, id, makers, best, settle);
      LevelAdvances(run, taker, makers, best, settle);
      var r := MatchLevel(run, taker, makers, best, settle);
      if r.Done? {
        LevelShrinks(run, r.run, makers, best);
        BookIgnoresTakerId(r.run, taker, id, limit, settle);
      }
    }
  }
}
