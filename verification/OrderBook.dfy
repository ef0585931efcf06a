/**
 Orders placed on one book and the runs they form, with the matching methods as the engines perform
 them in place (XDCx/order_processor.go, XDCxlending/order_processor.go).
 */
module OrderBook {
  import opened Options
  import opened Matching

  datatype Kind = Limit | Market

  /** One book: the resting orders, the last id given to a resting order, and the settlement state. */
  datatype Exchange<S, P> = Exchange(book: Book<P>, lastId: nat, state: S)

  /** The book after an order, or where the matching of the order failed. */
  datatype Placed<S, P> = Placed(exchange: Exchange<S, P>, run: Run<S, P>) | Rejected(run: Run<S, P>)

  /** No bid reaches an ask. */
  ghost predicate Uncrossed<P>(book: Book<P>) {
    forall b, a | b in book && a in book && book[b].side == Bid && book[a].side == Ask :: book[b].price < book[a].price
  }

  ghost predicate Sane<S, P>(e: Exchange<S, P>) {
    Resting(e.book) && Uncrossed(e.book) && forall id | id in e.book :: id <= e.lastId
  }

  ghost function Started<S, P>(e: Exchange<S, P>, order: Order<P>): Run<S, P> {
    Run(e.book, e.state, order.quantity, [], [], 0)
  }

  function LimitOf<P>(order: Order<P>, kind: Kind): Option<nat> {
    if kind == Limit then Some(order.price) else None
  }

  /** What is left of a limit order rests under a new id; what is left of a market order is discarded. */
  function Rest<S, P>(run: Run<S, P>, lastId: nat, order: Order<P>, kind: Kind): (e: Exchange<S, P>) {
    if kind == Limit && run.quantity > 0
    then Exchange(run.book[lastId + 1 := order.(id := lastId + 1, quantity := run.quantity)], lastId + 1, run.state)
    else Exchange(run.book, lastId, run.state)
  }

  /** processLimitOrder and processMarketOrder; a failed order is undone by the caller. */
  ghost function Place<S(!new), P(!new)>(
      e: Exchange<S, P>, order: Order<P>, kind: Kind, settle: Settler<S, P>): Placed<S, P>
    requires Honest(settle) && Resting(e.book)
  {
    match MatchBook(Started(e, order), order, LimitOf(order, kind), settle)
    case Failed(run) => Rejected(run)
    case Done(run) => Placed(Rest(run, e.lastId, order, kind), run)
  }

  /** Taking an order off the book. */
  function Cancel<S, P>(e: Exchange<S, P>, id: nat): Exchange<S, P> {
    e.(book := e.book - {id})
  }

  // ----- what placing an order keeps

  lemma {:induction false} TotalNone()
    ensures Total([]) == 0
  {
  }

  /**
   Conservation for one order: the taker's quantity is what was filled, what was rejected and what is left; the
   book loses what was filled and what was rejected of makers; and the fills run from the best price to the limit.
   */
  lemma PlaceConserves<S(!new), P(!new)>(e: Exchange<S, P>, order: Order<P>, kind: Kind, settle: Settler<S, P>)
    requires Honest(settle) && Resting(e.book)
    ensures var p := Place(e, order, kind, settle); p.Placed? ==>
      && order.quantity == Total(p.run.fills) + p.run.dropped + p.run.quantity
      && Volume(e.book) == Volume(p.run.book) + Total(p.run.fills) + Total(p.run.rejects)
      && Sweeps(Started(e, order), p.run, order.side.Other(), LimitOf(order, kind))
  {
    BookSweeps(Started(e, order), order, LimitOf(order, kind), settle);
    TotalNone();
  }

  /** What is left of a limit order rests in full under the next id, as it came, and nothing else is added. */
  lemma PlaceRests<S(!new), P(!new)>(e: Exchange<S, P>, order: Order<P>, kind: Kind, settle: Settler<S, P>)
    requires Honest(settle) && Sane(e)
    ensures var p := Place(e, order, kind, settle); p.Placed? ==>
      var rests := kind == Limit && p.run.quantity > 0;
      && p.exchange.state == p.run.state
      && p.exchange.book.Keys == p.run.book.Keys + (if rests then {e.lastId + 1} else {})
      && (forall id | id in p.run.book :: p.exchange.book[id] == p.run.book[id])
      && (rests ==>
          p.exchange.book[e.lastId + 1] == Order(e.lastId + 1, order.side, order.price, p.run.quantity, order.data))
      && Volume(p.exchange.book) == Volume(p.run.book) + if rests then p.run.quantity else 0
  {
    hide MatchBook, Uncrossed, Volume, Sweeps;
    BookSweeps(Started(e, order), order, LimitOf(order, kind), settle);
    var p := Place(e, order, kind, settle);
    if p.Placed? {
      SweptShrinks(Started(e, order), p.run, order.side.Other(), LimitOf(order, kind));
      if kind == Limit && p.run.quantity > 0 {
        VolumeInsert(p.run.book, order.(id := e.lastId + 1, quantity := p.run.quantity));
      }
    }
  }

  /** An order is rejected or rests, never both: what is rejected of it is all that its fills left. */
  lemma RejectedNeverRests<S(!new), P(!new)>(e: Exchange<S, P>, order: Order<P>, kind: Kind, settle: Settler<S, P>)
    requires Honest(settle) && Sane(e)
    ensures var p := Place(e, order, kind, settle); p.Placed? && p.run.dropped > 0 ==>
      p.exchange.lastId == e.lastId && p.exchange.book.Keys <= e.book.Keys
        && order.quantity == Total(p.run.fills) + p.run.dropped
  {
    hide MatchBook, Uncrossed, Volume;
    BookRejectsWhole(Started(e, order), order, LimitOf(order, kind), settle);
    PlaceConserves(e, order, kind, settle);
  }

  lemma VolumeInsert<P>(book: Book<P>, order: Order<P>)
    requires order.id !in book
    ensures Volume(book[order.id := order]) == Volume(book) + order.quantity
  {
    VolumeRemove(book[order.id := order], order.id);
    assert book[order.id := order] - {order.id} == book;
  }

  lemma ShrunkUncrossed<P>(a: Book<P>, b: Book<P>)
    requires Uncrossed(a) && b.Keys <= a.Keys
    requires forall id | id in b :: b[id].side == a[id].side && b[id].price == a[id].price
    ensures Uncrossed(b)
  {
  }

  /** A remainder rests only where no maker within its limit is left, so the book stays uncrossed. */
  lemma PlaceKeepsSane<S(!new), P(!new)>(e: Exchange<S, P>, order: Order<P>, kind: Kind, settle: Settler<S, P>)
    requires Honest(settle) && Sane(e) && order.quantity > 0 && (kind == Limit ==> order.price > 0)
    ensures var p := Place(e, order, kind, settle); p.Placed? ==> Sane(p.exchange)
  {
    hide MatchBook;
    var start, makers, limit := Started(e, order), order.side.Other(), LimitOf(order, kind);
    BookSweeps(start, order, limit, settle);
    var r := MatchBook(start, order, limit, settle);
    if r.Done? {
      SweptSane(e, order, r.run, kind);
    }
  }

  lemma SweptSane<S, P>(e: Exchange<S, P>, order: Order<P>, run: Run<S, P>, kind: Kind)
    requires Sane(e) && order.quantity > 0 && (kind == Limit ==> order.price > 0)
    requires Sweeps(Started(e, order), run, order.side.Other(), LimitOf(order, kind)) && Resting(run.book)
    requires run.quantity > 0 ==>
      forall id | id in run.book :: !Reachable(order.side.Other(), LimitOf(order, kind), run.book[id])
    ensures Sane(Rest(run, e.lastId, order, kind))
  {
    hide Uncrossed, Resting;
    SweptShrinks(Started(e, order), run, order.side.Other(), LimitOf(order, kind));
    hide Sweeps, Reachable;
    ShrunkUncrossed(e.book, run.book);
    if kind == Limit && run.quantity > 0 {
      RestedUncrossed(run.book, order.(id := e.lastId + 1, quantity := run.quantity));
      RestedResting(run.book, order.(id := e.lastId + 1, quantity := run.quantity));
    }
  }

  lemma RestedResting<P>(book: Book<P>, order: Order<P>)
    requires Resting(book) && order.quantity > 0 && order.price > 0
    ensures Resting(book[order.id := order])
  {
  }

  lemma SweptShrinks<S, P>(a: Run<S, P>, b: Run<S, P>, makers: Side, limit: Option<nat>)
    requires Sweeps(a, b, makers, limit)
    ensures b.book.Keys <= a.book.Keys
    ensures forall id | id in b.book :: b.book[id].side == a.book[id].side && b.book[id].price == a.book[id].price
  {
    hide BookTotal, TakerTotal;
  }

  lemma RestedUncrossed<P>(book: Book<P>, order: Order<P>)
    requires Uncrossed(book)
    requires forall id | id in book :: !Reachable(order.side.Other(), Some(order.price), book[id])
    ensures Uncrossed(book[order.id := order])
  {
  }

  lemma CancelKeepsSane<S, P>(e: Exchange<S, P>, id: nat)
    requires Sane(e)
    ensures Sane(Cancel(e, id))
  {
  }

  // ----- runs

  datatype Action<P> = Submit(order: Order<P>, kind: Kind) | Withdraw(id: nat)

  /** One action; an order without quantity or price is refused, and an error leaves everything as it was. */
  ghost function Act<S(!new), P(!new)>(e: Exchange<S, P>, a: Action<P>, settle: Settler<S, P>): Exchange<S, P>
    requires Honest(settle) && Resting(e.book)
  {
    match a
    case Withdraw(id) => Cancel(e, id)
    case Submit(order, kind) =>
      if order.quantity == 0 || (kind == Limit && order.price == 0) then e
      else
        match Place(e, order, kind, settle)
        case Rejected(_) => e
        case Placed(after, _) => after
  }

  ghost function ActAll<S(!new), P(!new)>(
      e: Exchange<S, P>, actions: seq<Action<P>>, settle: Settler<S, P>): Exchange<S, P>
    requires Honest(settle) && Sane(e)
    decreases |actions|
  {
    if actions == [] then e
    else
      ActKeepsSane(e, actions[0], settle);
      ActAll(Act(e, actions[0], settle), actions[1..], settle)
  }

  lemma ActKeepsSane<S(!new), P(!new)>(e: Exchange<S, P>, a: Action<P>, settle: Settler<S, P>)
    requires Honest(settle) && Sane(e)
    ensures Sane(Act(e, a, settle))
  {
    hide Place;
    match a
    case Withdraw(id) => CancelKeepsSane(e, id);
    case Submit(order, kind) =>
      if order.quantity > 0 && (kind == Limit ==> order.price > 0) {
        PlaceKeepsSane(e, order, kind, settle);
      }
  }

  /** After any sequence of limit, market and cancel orders the best bid is below the best ask. */
  lemma {:induction false} NeverCrossed<S(!new), P(!new)>(
      e: Exchange<S, P>, actions: seq<Action<P>>, settle: Settler<S, P>)
    requires Honest(settle) && Sane(e)
    ensures var after := ActAll(e, actions, settle);
      && Sane(after)
      && (BestPrice(after.book, Bid) > 0 && BestPrice(after.book, Ask) > 0 ==>
          BestPrice(after.book, Bid) < BestPrice(after.book, Ask))
    decreases |actions|
  {
    hide Act;
    if actions == [] {
      BestIs(e.book, Bid);
      BestIs(e.book, Ask);
    } else {
      ActKeepsSane(e, actions[0], settle);
      NeverCrossed(Act(e, actions[0], settle), actions[1..], settle);
    }
  }

  /** What every settlement of fitting orders keeps holds after any sequence of fitting orders. */
  lemma {:induction false} RunKeeps<S(!new), P(!new)>(
    e: Exchange<S, P>, actions: seq<Action<P>>, settle: Settler<S, P>, inv: (S, nat) -> bool, fit: P -> bool)
    requires Honest(settle) && Sane(e) && SettleKeeps(settle, inv, fit) && inv(e.state, 0) && AllFit(e.book, fit)
    requires forall i | 0 <= i < |actions| && actions[i].Submit? :: fit(actions[i].order.data)
    requires forall s: S, k: nat :: inv(s, k) ==> inv(s, 0)
    ensures inv(ActAll(e, actions, settle).state, 0)
    decreases |actions|
  {
    hide Act, SettleKeeps, Honest;
    if actions != [] {
      ActKeepsSane(e, actions[0], settle);
      ActKeeps(e, actions[0], settle, inv, fit);
      RunKeeps(Act(e, actions[0], settle), actions[1..], settle, inv, fit);
    }
  }

  /** The orders that rest were there before or were placed. */
  lemma {:induction false} RunFits<S(
      !new), P(!new)>(e: Exchange<S, P>, actions: seq<Action<P>>, settle: Settler<S, P>, fit: P -> bool)
    requires Honest(settle) && Sane(e) && AllFit(e.book, fit)
    requires forall i | 0 <= i < |actions| && actions[i].Submit? :: fit(actions[i].order.data)
    ensures AllFit(ActAll(e, actions, settle).book, fit)
    decreases |actions|
  {
    hide Act, Honest;
    if actions != [] {
      ActKeepsSane(e, actions[0], settle);
      assert SettleKeeps(settle, (s: S, k: nat) => true, fit);
      ActKeeps(e, actions[0], settle, (s: S, k: nat) => true, fit);
      RunFits(Act(e, actions[0], settle), actions[1..], settle, fit);
    }
  }

  lemma ActKeeps<S(!new), P(!new)>(
      e: Exchange<S, P>, a: Action<P>, settle: Settler<S, P>, inv: (S, nat) -> bool, fit: P -> bool)
    requires Honest(settle) && Sane(e) && SettleKeeps(settle, inv, fit) && inv(e.state, 0) && AllFit(e.book, fit)
    requires a.Submit? ==> fit(a.order.data)
    requires forall s: S, k: nat :: inv(s, k) ==> inv(s, 0)
    ensures var after := Act(e, a, settle); inv(after.state, 0) && AllFit(after.book, fit)
  {
    hide MatchBook, SettleKeeps, Honest;
    if a.Submit? {
      BookKeeps(Started(e, a.order), a.order, LimitOf(a.order, a.kind), settle, inv, fit);
    }
  }

  /** An order that fills one maker of a level and then meets one whose settlement fails. */
  lemma FailsAfterFill<S(!new), P(!new)>(
      e: Exchange<S, P>, order: Order<P>, settle: Settler<S, P>, first: Order<P>, second: Order<P>, after: S)
    requires Honest(settle) && e.book == map[first.id := first, second.id := second] && first.id < second.id
    requires first.side == second.side == order.side.Other() && first.price == second.price > 0
    requires 0 < first.quantity < order.quantity && second.quantity == order.quantity - first.quantity
    requires settle(e.state, order, first, first.quantity) == Settled(after, first.quantity, false)
    requires settle(after, order, second, second.quantity).Failure?
    ensures Place(e, order, Market, settle) ==
      Rejected(Run(map[second.id := second], after, second.quantity, [Fill(first.id, first.price, first.quantity)], [],
                   0))
  {
    hide Honest, Round, MatchLevel, BestPrice, BookTotal, TakerTotal, OnlyLevel, FillsAt;
    var makers, price := order.side.Other(), first.price;
    var start := Started(e, order);
    OldestOfTwo(e.book, first, second);
    var next := Take(start.(state := after), first.id, first.quantity);
    assert next.book == map[second.id := second];
    assert next.fills == [Fill(first.id, price, first.quantity)];
    FirstFills(start, order, first, settle, after);
    RoundAdvances(start, order, first.id, makers, price, settle);
    LastFails(next, order, second, makers, settle);
    assert MatchLevel(start, order, makers, price, settle) == Failed(next) by {
      LevelContinues(start, next, order, makers, price, settle);
    }
    LevelAdvances(start, order, makers, price, settle);
  }

  /** An order that the oldest maker of the best level fills exactly. */
  lemma FillsFirst<S(!new), P(!new)>(
      e: Exchange<S, P>, order: Order<P>, settle: Settler<S, P>, first: Order<P>, second: Order<P>, after: S)
    requires Honest(settle) && e.book == map[first.id := first, second.id := second] && first.id < second.id
    requires first.side == second.side == order.side.Other() && first.price == second.price > 0
    requires 0 < first.quantity == order.quantity && second.quantity > 0
    requires settle(e.state, order, first, first.quantity) == Settled(after, first.quantity, false)
    ensures Resting(e.book)
    ensures var p := Place(e, order, Market, settle);
      p.Placed? && p.exchange == Exchange(map[second.id := second], e.lastId, after) && |p.run.fills| == 1
  {
    hide Honest, MatchLevel, BestPrice, BookTotal, TakerTotal, OnlyLevel, FillsAt;
    var makers, price := order.side.Other(), first.price;
    var start := Started(e, order);
    OldestOfTwo(e.book, first, second);
    var next := Take(start.(state := after), first.id, first.quantity);
    assert next.book == map[second.id := second];
    RoundAdvances(start, order, first.id, makers, price, settle);
    assert Round(start, order, first.id, settle) == Continue(next) by {
      HonestSomewhere(settle, start.state, order, first, first.quantity);
    }
    LevelContinues(start, next, order, makers, price, settle);
    LevelAdvances(start, order, makers, price, settle);
    DoneLevel(next, order, makers, price, settle);
    LevelShrinks(start, next, makers, price);
    DoneBook(next, order, None, settle);
  }

  lemma DoneLevel<S(!new), P(!new)>(run: Run<S, P>, taker: Order<P>, makers: Side, price: nat, settle: Settler<S, P>)
    requires Honest(settle) && Resting(run.book) && run.quantity == 0
    ensures MatchLevel(run, taker, makers, price, settle) == Done(run)
  {
  }

  lemma DoneBook<S(!new), P(!new)>(run: Run<S, P>, taker: Order<P>, limit: Option<nat>, settle: Settler<S, P>)
    requires Honest(settle) && Resting(run.book) && run.quantity == 0
    ensures MatchBook(run, taker, limit, settle) == Done(run)
  {
  }

  lemma OldestOfTwo<P>(book: Book<P>, first: Order<P>, second: Order<P>)
    requires book == map[first.id := first, second.id := second] && first.id < second.id
    requires first.side == second.side && first.price == second.price > 0 && first.quantity > 0 && second.quantity > 0
    ensures BestPrice(book, first.side) == first.price && Resting(book)
    ensures Level(book, first.side, first.price) != {} && Oldest(book, first.side, first.price) == first.id
  {
    assert book[first.id] == first && book[second.id] == second;
    assert IsBest(book, first.side, first.price);
    BestIs(book, first.side);
    assert first.id in Level(book, first.side, first.price);
    OldestIs(book, first.side, first.price);
  }

  lemma FirstFills<S(!new), P(!new)>(
      start: Run<S, P>, order: Order<P>, first: Order<P>, settle: Settler<S, P>, after: S)
    requires Honest(settle) && first.id in start.book && start.book[first.id] == first
      && 0 < first.quantity < start.quantity
    requires settle(start.state, order, first, first.quantity) == Settled(after, first.quantity, false)
    ensures Round(start, order, first.id, settle) == Continue(Take(start.(state := after), first.id, first.quantity))
  {
  }

  lemma LastFails<S(!new), P(!new)>(
      run: Run<S, P>, order: Order<P>, last: Order<P>, makers: Side, settle: Settler<S, P>)
    requires Honest(settle) && run.book == map[last.id := last] && last.side == makers && last.price > 0
    requires 0 < last.quantity == run.quantity && settle(run.state, order, last, last.quantity).Failure?
    ensures Resting(run.book) && MatchLevel(run, order, makers, last.price, settle) == Failed(run)
  {
    assert last.id in Level(run.book, makers, last.price);
    OldestIs(run.book, makers, last.price);
    assert Round(run, order, last.id, settle) == Abort(run);
  }

  lemma LevelContinues<S(!new), P(!new)>(
      run: Run<S, P>, next: Run<S, P>, order: Order<P>, makers: Side, price: nat, settle: Settler<S, P>)
    requires Honest(settle) && Resting(run.book) && Resting(next.book) && run.quantity > 0
      && Level(run.book, makers, price) != {}
    requires Oldest(run.book, makers, price) in run.book
    requires Round(run, order, Oldest(run.book, makers, price), settle) == Continue(next)
    ensures MatchLevel(run, order, makers, price, settle) == MatchLevel(next, order, makers, price, settle)
  {
    hide Round;
  }

  // ----- the loops in place

  class Engine<S(!new), P(!new)> {
    const settle: Settler<S, P>
    var book: Book<P>
    var lastId: nat
    var state: S

    // the order that is being matched
    var quantity: nat
    var fills: seq<Fill>
    var rejects: seq<Fill>
    var dropped: nat

    ghost function View(): Run<S, P>
      reads this
    {
      Run(book, state, quantity, fills, rejects, dropped)
    }

    constructor (settle: Settler<S, P>, state: S)
      ensures this.settle == settle && book == map[] && lastId == 0 && this.state == state
    {
      this.settle, this.state := settle, state;
      book, lastId, quantity, fills, rejects, dropped := map[], 0, 0, [], [], 0;
    }

    /** GetBestOrderIdAndAmount: the oldest order of a level. */
    method OldestOrder(makers: Side, price: nat) returns (id: Option<nat>)
      ensures id.None? <==> Level(book, makers, price) == {}
      ensures id.Some? ==> id.value == Oldest(book, makers, price) && id.value in book
    {
      id := None;
      var todo := book.Keys;
      while todo != {}
        invariant todo <= book.Keys
        invariant id.None? ==> forall i | i in book.Keys - todo :: i !in Level(book, makers, price)
        invariant id.Some? ==> id.value in Level(book, makers, price)
        invariant id.Some? ==> forall i | i in book.Keys - todo && i in Level(book, makers, price) :: id.value <= i
      {
        var i :| i in todo;
        todo := todo - {i};
        if book[i].side == makers && book[i].price == price && (id.None? || i < id.value) {
          id := Some(i);
        }
      }
      if id.Some? {
        assert IsOldest(book, makers, price, id.value);
      }
    }

    /** GetBestAskPrice and GetBestBidPrice. */
    method BestPriceOf(side: Side) returns (price: nat)
      requires Resting(book)
      ensures price == BestPrice(book, side)
    {
      price := 0;
      var todo := book.Keys;
      while todo != {}
        invariant todo <= book.Keys
        invariant price == 0 ==> forall i | i in book.Keys - todo :: book[i].side != side
        invariant price > 0 ==> exists i :: i in book && book[i].side == side && book[i].price == price
        invariant price > 0 ==> forall i | i in book.Keys - todo && book[i].side == side ::
          NoWorse(side, price, book[i].price)
      {
        var i :| i in todo;
        todo := todo - {i};
        if book[i].side == side && (price == 0 || NoWorse(side, book[i].price, price)) {
          price := book[i].price;
        }
      }
      BestIs(book, side);
      if price > 0 {
        assert IsBest(book, side, price);
      }
    }

    method CancelMaker(id: nat)
      requires id in book
      modifies this`book, this`rejects
      ensures View() == RejectMaker(old(View()), id)
    {
      rejects := rejects + [Fill(id, book[id].price, book[id].quantity)];
      book := book - {id};
    }

    method CancelTaker()
      modifies this`quantity, this`dropped
      ensures View() == RejectTaker(old(View()))
    {
      dropped := dropped + quantity;
      quantity := 0;
    }

    /** One round against a maker. */
    method MatchMaker(taker: Order<P>, id: nat) returns (ok: bool)
      requires Honest(settle) && Resting(book) && quantity > 0 && id in book
      modifies this`book, this`state, this`quantity, this`fills, this`rejects, this`dropped
      ensures var n := Round(old(View()), taker, id, settle);
        View() == n.run && ok == !n.Abort?
    {
      var amount := book[id].quantity;
      var most := if quantity <= amount then quantity else amount;
      assert HonestAt(settle, state, taker, book[id], most);
      match settle(state, taker, book[id], most) {
        case Failure =>
          return false;
        case TooSmall(traded, rejectMaker) =>
          if traded == most {
            if quantity == amount {
              CancelTaker();
              CancelMaker(id);
            } else if quantity < amount {
              CancelTaker();
            } else {
              CancelMaker(id);
            }
          } else if rejectMaker {
            CancelMaker(id);
          } else {
            CancelTaker();
          }
        case Settled(after, traded, rejectMaker) =>
          state := after;
          if traded == 0 && !rejectMaker {
            CancelTaker();
          } else {
            if traded > 0 {
              quantity := quantity - traded;
              fills := fills + [Fill(id, book[id].price, traded)];
              book := Reduce(book, id, traded);
            }
            if rejectMaker {
              CancelMaker(id);
            }
          }
      }
      ok := true;
    }

    method ProcessOrderList(taker: Order<P>, makers: Side, price: nat) returns (ok: bool)
      requires Honest(settle) && Resting(book)
      modifies this`book, this`state, this`quantity, this`fills, this`rejects, this`dropped
      ensures var r := MatchLevel(old(View()), taker, makers, price, settle);
        r == if ok then Done(View()) else Failed(View())
      ensures ok ==> Resting(book)
    {
      hide Round, Honest, Advances;
      while quantity > 0
        invariant Resting(book)
        invariant MatchLevel(View(), taker, makers, price, settle) ==
          MatchLevel(old(View()), taker, makers, price, settle)
        decreases |book|, quantity
      {
        var id := OldestOrder(makers, price);
        if id.None? {
          break;
        }
        ghost var before := View();
        OldestInLevel(book, makers, price);
        RoundAdvances(before, taker, id.value, makers, price, settle);
        ok := MatchMaker(taker, id.value);
        if !ok {
          return;
        }
        assert Round(before, taker, id.value, settle).Stop? ==>
          MatchLevel(View(), taker, makers, price, settle) == Done(View());
      }
      ok := true;
    }

    method MatchOrder(taker: Order<P>, limit: Option<nat>) returns (ok: bool)
      requires Honest(settle) && Resting(book)
      modifies this`book, this`state, this`quantity, this`fills, this`rejects, this`dropped
      ensures var r := MatchBook(old(View()), taker, limit, settle);
        r == if ok then Done(View()) else Failed(View())
      ensures ok ==> Resting(book)
    {
      hide MatchLevel, Honest, Advances, BestPrice;
      var makers := taker.side.Other();
      var best: nat := BestPriceOf(makers);
      while quantity > 0 && best > 0 && (limit.Some? ==> NoWorse(makers, best, limit.value))
        invariant Resting(book) && best == BestPrice(book, makers)
        invariant MatchBook(View(), taker, limit, settle) == MatchBook(old(View()), taker, limit, settle)
        decreases |book|, quantity
      {
        ghost var before := View();
        LevelAdvances(before, taker, makers, best, settle);
        ok := ProcessOrderList(taker, makers, best);
        if !ok {
          return;
        }
        LevelShrinks(before, View(), makers, best);
        best := BestPriceOf(makers);
      }
      ok := true;
    }

    method ProcessOrder(order: Order<P>, kind: Kind) returns (ok: bool)
      requires Honest(settle) && Resting(book)
      modifies this
      ensures var p := Place(old(Exchange(book, lastId, state)), order, kind, settle);
        if ok then p.Placed? && p.exchange == Exchange(book, lastId, state) && View() == p.run.(book := book)
        else p == Rejected(View()) && lastId == old(lastId)
    {
      hide MatchBook;
      quantity, fills, rejects, dropped := order.quantity, [], [], 0;
      ok := MatchOrder(order, LimitOf(order, kind));
      if ok && kind == Limit && quantity > 0 {
        lastId := lastId + 1;
        book := book[lastId := order.(id := lastId, quantity := quantity)];
      }
    }
  }
}
