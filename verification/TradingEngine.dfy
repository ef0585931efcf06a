/**
 The trading engine order by order (XDCx/order_processor.go: CommitOrder, ApplyOrder, ProcessCancelOrder), what the
 proposer of a block records (XDCx/XDCx.go: ProcessOrderPending) and how a validator replays it
 (core/block_validator.go: ValidateTradingOrder).
 */
module TradingEngine {
  import opened Options
  import opened Sums
  import opened Ledger
  import opened Matching
  import opened OrderBook
  import opened BalanceOverlay
  import opened Relayers
  import opened EpochPrice
  import opened TradingSettlement
  import Quantities

  /** common/constants.go: what a relayer pays for a cancelled order. */
  const RELAYER_CANCEL_FEE := 100_000_000_000_000
  /** XDCx/XDCx.go: MaximumTxMatchSize. */
  const MAXIMUM_MATCHES := 1000

  /** An order as users sign it. Cancelling names a resting order by its id. */
  datatype Item = Item(nonce: nat, party: Party, side: Side, kind: Kind, cancel: bool, price: nat, quantity: nat,
                       orderId: nat)

  datatype Shelf = Shelf(orders: Book<Party>, lastId: nat)

  /**
   Balances, books, nonces, and the average price of every pair in this epoch and in the last one that saw a trade.
   */
  datatype Trading = Trading(
    funds: Funds,
    shelves: map<Pair, Shelf>,
    nonces: map<Address, nat>,
    averages: map<Pair, Average>,
    before: map<Pair, nat>)

  /** What is fixed in a block: the environment, the check of an order, and the fee and note of a cancellation. */
  datatype Rules = Rules(
    env: Env,
    verify: (Funds, Item) -> bool,
    cancelFee: (Funds, Order<Party>) -> nat,
    cancelNote: (Funds, Order<Party>) -> string)

  /** Only a cancellation is checked by its id, and the extra data is never looked at. */
  ghost predicate Unread(rules: Rules) {
    && (forall f: Funds, i: Item, x: string :: rules.verify(f, i.(party := i.party.(extra := x))) == rules.verify(f, i))
    && (forall f: Funds, i: Item, id: nat :: !i.cancel ==> rules.verify(f, i.(orderId := id)) == rules.verify(f, i))
  }

  function PairOf(i: Item): Pair { Pair(i.party.base, i.party.quote) }

  function ShelfOf(s: Trading, p: Pair): Shelf { if p in s.shelves then s.shelves[p] else Shelf(map[], 0) }

  function AverageOf(s: Trading, p: Pair): Average { if p in s.averages then s.averages[p] else NOTHING }

  /** GetMediumPriceBeforeEpoch. */
  function BeforeOf(s: Trading, p: Pair): nat { ValueOf(s.before, p) }

  function NonceOf(s: Trading, user: Address): nat { ValueOf(s.nonces, user) }

  function ExchangeOf(
      s: Trading, p: Pair): Exchange<Funds, Party> { Exchange(ShelfOf(s, p).orders, ShelfOf(s, p).lastId, s.funds) }

  /** Every book is in order. */
  ghost predicate Valid(s: Trading) {
    forall p | p in s.shelves :: Sane(ExchangeOf(s, p))
  }

  function OrderOf(i: Item): Order<Party> { Order(i.orderId, i.side, i.price, i.quantity, i.party) }

  // ----- one order

  datatype Result = NonceTooHigh | NonceTooLow | Applied(state: Trading, item: Item)

  /** The fees of a cancellation: the relayer pays the masternode, the user pays the relayer's owner. */
  function CancelBalances(rules: Rules, f: Funds, order: Order<Party>): Funds {
    var env, fee := rules.env, rules.cancelFee(f, order);
    var token := if order.side == Ask then order.data.base else order.data.quote;
    var owner := env.OwnerOf(order.data.exchange);
    var deposit := ValueOf(f.deposits, order.data.exchange);
    var deposits := if deposit < RELAYER_CANCEL_FEE then f.deposits
                    else f.deposits[order.data.exchange := deposit - RELAYER_CANCEL_FEE];
    var drawn :=
      if deposit < RELAYER_CANCEL_FEE then f.balances
      else Debit(f.balances, Account(XDC_NATIVE, env.contract), RELAYER_CANCEL_FEE);
    var paid := Credit(drawn, Account(XDC_NATIVE, env.masternodeOwner), RELAYER_CANCEL_FEE);
    if !Known(env.tokens, token) then f.(balances := paid, deposits := deposits)
    else
      f.(balances := Credit(Debit(paid, Account(token, order.data.user), fee), Account(token, owner), fee),
         deposits := deposits)
  }

  /** ProcessCancelOrder; whatever goes wrong, nothing is changed. */
  function CancelOrder(rules: Rules, s: Trading, i: Item): (r: Result)
    ensures r.Applied?
  {
    var shelf := ShelfOf(s, PairOf(i));
    if !CanPay(s.funds.deposits, i.party.exchange, RELAYER_CANCEL_FEE) then Applied(s, i)
    else if rules.env.Decimal(i.party.base) == 0 || i.orderId !in shelf.orders then Applied(s, i)
    else
      var order := shelf.orders[i.orderId];
      var token := if order.side == Ask then order.data.base else order.data.quote;
      if TokenBalance(rules.env.tokens, s.funds.balances, order.data.user, token) < rules.cancelFee(s.funds, order)
      then Applied(s, i)
      else if order.data.user != i.party.user || order.data.hash != i.party.hash then Applied(s, i)
      else if order.data.exchange != i.party.exchange then Applied(s, i)
      else
        Applied(s.(funds := CancelBalances(rules, s.funds, order),
                   shelves := s.shelves[PairOf(i) := shelf.(orders := shelf.orders - {i.orderId})]),
                i.(party := i.party.(extra := rules.cancelNote(s.funds, order))))
  }

  predicate Matchable(i: Item) {
    0 < i.quantity < WORD && (i.kind == Limit ==> 0 < i.price < WORD)
  }

  /** The matching of an order and what it does to the average price; a failed one is undone. */
  ghost function MatchOrder(rules: Rules, s: Trading, i: Item): (r: Result)
    requires Valid(s) && Matchable(i)
  {
    TradesHonestly(rules.env);
    SaneShelf(s, PairOf(i));
    var before := ExchangeOf(s, PairOf(i));
    PlacedFills(before, OrderOf(i), i.kind, TradeSettler(rules.env));
    match Place(before, OrderOf(i), i.kind, TradeSettler(rules.env))
    case Rejected(_) => Applied(s, i)
    case Placed(after, run) =>
      Applied(s.(funds := after.state, shelves := s.shelves[PairOf(i) := Shelf(after.book, after.lastId)],
                 averages := s.averages[PairOf(i) := RecordAll(AverageOf(s, PairOf(i)), run.fills)]),
              if after.lastId > before.lastId then i.(orderId := after.lastId) else i)
  }

  /** ApplyOrder: the nonce is checked before anything changes and then counts, however the order fares. */
  ghost function ApplyOrder(rules: Rules, s: Trading, i: Item): (r: Result)
    requires Valid(s)
  {
    var nonce := NonceOf(s, i.party.user);
    if nonce < i.nonce then NonceTooHigh
    else if nonce > i.nonce then NonceTooLow
    else
      var counted := s.(nonces := s.nonces[i.party.user := nonce + 1]);
      CountedValid(s, counted);
      if !rules.verify(counted.funds, i) then Applied(counted, i)
      else if i.cancel then CancelOrder(rules, counted, i)
      else if !Matchable(i) then Applied(counted, i)
      else MatchOrder(rules, counted, i)
  }

  lemma SaneShelf(s: Trading, p: Pair)
    requires Valid(s)
    ensures Sane(ExchangeOf(s, p))
  {
  }

  lemma CountedValid(s: Trading, counted: Trading)
    requires Valid(s) && counted == s.(nonces := counted.nonces)
    ensures Valid(counted)
  {
    forall p | p in counted.shelves ensures Sane(ExchangeOf(counted, p)) {
      assert ExchangeOf(counted, p) == ExchangeOf(s, p);
    }
  }

  /** The fills of an order are trades at the prices of resting makers. */
  lemma PlacedFills<S(!new), P(!new)>(e: Exchange<S, P>, order: Order<P>, kind: Kind, settle: Settler<S, P>)
    requires Honest(settle) && Resting(e.book)
    ensures Place(e, order, kind, settle).Placed? ==> Trades(Place(e, order, kind, settle).run.fills)
  {
    hide MatchBook;
    PlaceConserves(e, order, kind, settle);
  }

  /** Every order keeps every book in order: no book is ever crossed, whatever is placed, matched or cancelled. */
  lemma ApplyKeepsValid(rules: Rules, s: Trading, i: Item)
    requires Valid(s)
    ensures ApplyOrder(rules, s, i).Applied? ==> Valid(ApplyOrder(rules, s, i).state)
  {
    hide Sane, Place, CancelBalances;
    var r := ApplyOrder(rules, s, i);
    var counted := s.(nonces := s.nonces[i.party.user := NonceOf(s, i.party.user) + 1]);
    CountedValid(s, counted);
    SaneShelf(counted, PairOf(i));
    if r.Applied? && rules.verify(counted.funds, i) {
      if i.cancel {
        CancelKeepsSane(ExchangeOf(counted, PairOf(i)), i.orderId);
        SaneAnyhow(Cancel(ExchangeOf(counted, PairOf(i)), i.orderId), r.state.funds);
      } else if Matchable(i) {
        TradesHonestly(rules.env);
        PlaceKeepsSane(ExchangeOf(counted, PairOf(i)), OrderOf(i), i.kind, TradeSettler(rules.env));
      }
      OnlyShelf(counted, r.state, PairOf(i));
    }
  }

  /**
   An order applies exactly under its user's next nonce, and then never again; one that is refused changes only the
   nonce.
   */
  lemma NonceDiscipline(rules: Rules, s: Trading, i: Item)
    requires Valid(s)
    ensures var r := ApplyOrder(rules, s, i);
      && (r.Applied? <==> i.nonce == NonceOf(s, i.party.user))
      && (r.Applied? ==> Valid(r.state) && r.state.nonces == s.nonces[i.party.user := i.nonce + 1])
      && (r.Applied? ==> ApplyOrder(rules, r.state, i) == NonceTooLow)
      && (r.Applied? && (!rules.verify(s.funds, i) || (!i.cancel && !Matchable(i))) ==>
            r.state == s.(nonces := r.state.nonces) && r.item == i)
  {
    hide Place, CancelBalances, RecordAll, Valid;
    ApplyKeepsValid(rules, s, i);
  }

  /**
   A cancellation takes at most the named order off the book, only for the user, relayer and hash it was placed with,
   and notes it.
   */
  lemma CancelsOnlyOwn(rules: Rules, s: Trading, i: Item, p: Pair, id: nat)
    ensures var r := CancelOrder(rules, s, i).state;
      && r.nonces == s.nonces && r.averages == s.averages && ShelfOf(r, p).lastId == ShelfOf(s, p).lastId
      && (id in ShelfOf(r, p).orders ==>
          id in ShelfOf(s, p).orders && ShelfOf(r, p).orders[id] == ShelfOf(s, p).orders[id])
      && (id in ShelfOf(s, p).orders && id !in ShelfOf(r, p).orders ==>
            var o := ShelfOf(s, p).orders[id].data;
            && p == PairOf(i) && id == i.orderId && o.user == i.party.user && o.exchange == i.party.exchange
            && o.hash == i.party.hash
            && CancelOrder(rules, s, i).item ==
              i.(party := i.party.(extra := rules.cancelNote(s.funds, ShelfOf(s, p).orders[id]))))
  {
    hide CancelBalances;
  }

  /**
   A resting order leaves its book, or shrinks, only by the cancellation of its own user, relayer and hash, or by an
   order of the other side that reaches its price.
   */
  lemma LeavesOnlyBy(rules: Rules, s: Trading, i: Item, p: Pair, id: nat)
    requires Valid(s) && ApplyOrder(rules, s, i).Applied? && id in ShelfOf(s, p).orders
    ensures var r, o := ApplyOrder(rules, s, i).state, ShelfOf(s, p).orders[id];
      (id in ShelfOf(r, p).orders && ShelfOf(r, p).orders[id] == o) || (p == PairOf(i) && TakesOff(i, id, o))
  {
    hide Place, TradeSettler, CancelBalances, RecordAll, Valid, CancelOrder;
    var counted := s.(nonces := s.nonces[i.party.user := NonceOf(s, i.party.user) + 1]);
    CountedValid(s, counted);
    CancelsOnlyOwn(rules, counted, i, p, id);
    if !i.cancel && Matchable(i) {
      TradesHonestly(rules.env);
      SaneShelf(counted, PairOf(i));
      PlacedSpares(ExchangeOf(counted, PairOf(i)), OrderOf(i), i.kind, TradeSettler(rules.env), id);
    }
  }

  /** What can take a resting order off. */
  predicate TakesOff(i: Item, id: nat, o: Order<Party>) {
    if i.cancel then id == i.orderId && o.data.user == i.party.user && o.data.exchange == i.party.exchange
      && o.data.hash == i.party.hash
    else Reachable(i.side.Other(), LimitOf(OrderOf(i), i.kind), o)
  }

  lemma PlacedSpares<S(!new), P(!new)>(e: Exchange<S, P>, order: Order<P>, kind: Kind, settle: Settler<S, P>, id: nat)
    requires Honest(settle) && Sane(e)
    ensures var p := Place(e, order, kind, settle);
      p.Placed? && id in e.book && !Reachable(order.side.Other(), LimitOf(order, kind), e.book[id]) ==>
        id in p.exchange.book && p.exchange.book[id] == e.book[id]
  {
    hide MatchBook, Uncrossed;
    PlaceConserves(e, order, kind, settle);
  }

  /** Over a whole block the same holds of an order that is gone or smaller at its end. */
  lemma {:induction false} GoneOnlyBy(rules: Rules, s: Trading, items: seq<Item>, p: Pair, id: nat) returns (k: nat)
    requires Valid(s) && Replay(rules, s, items).Some? && id in ShelfOf(s, p).orders
    ensures var r, o := Replay(rules, s, items).value, ShelfOf(s, p).orders[id];
      (id in ShelfOf(r, p).orders && ShelfOf(r, p).orders[id] == o)
        || (k < |items| && p == PairOf(items[k]) && TakesOff(items[k], id, o))
    decreases |items|
  {
    hide ApplyOrder, Valid, TakesOff;
    k := 0;
    if items != [] {
      var n := |items| - 1;
      k := GoneOnlyBy(rules, s, items[..n], p, id);
      var before, o := Replay(rules, s, items[..n]).value, ShelfOf(s, p).orders[id];
      if id in ShelfOf(before, p).orders && ShelfOf(before, p).orders[id] == o {
        LeavesOnlyBy(rules, before, items[n], p, id);
        k := if id in ShelfOf(Replay(rules, s, items).value, p).orders
          && ShelfOf(Replay(rules, s, items).value, p).orders[id] == o then k else n;
      }
    }
  }

  /** Being in order does not depend on the funds. */
  lemma SaneAnyhow(e: Exchange<Funds, Party>, f: Funds)
    requires Sane(e)
    ensures Sane(e.(state := f))
  {
  }

  lemma OnlyShelf(s: Trading, r: Trading, p: Pair)
    requires Valid(s) && (r.shelves == s.shelves
                          || (r.shelves == s.shelves[p := ShelfOf(r, p)] && Sane(ExchangeOf(r, p))))
    ensures Valid(r)
  {
    forall o | o in r.shelves ensures Sane(ExchangeOf(r, o)) {
      if o != p || r.shelves == s.shelves {
        assert Sane(ExchangeOf(s, o));
      }
    }
  }

  // ----- replay

  /** What the proposer records: the order as it came, with the id and the extra data that processing it left. */
  function Recorded(i: Item, processed: Item): Item {
    i.(orderId := processed.orderId, party := i.party.(extra := processed.party.extra))
  }

  lemma TradesIgnoreTakerId(env: Env)
    ensures IgnoresTakerId(TradeSettler(env))
  {
    hide SettleTrade;
    forall s: Funds, taker: Order<Party>, maker: Order<Party>, q: nat, id: nat
      ensures TradeSettler(env)(s, taker.(id := id), maker, q) == TradeSettler(env)(s, taker, maker, q)
    {
      TradeIgnoresTakerId(env, s, taker, maker, q, id);
    }
  }

  lemma TradeIgnoresTakerId(env: Env, s: Funds, taker: Order<Party>, maker: Order<Party>, q: nat, id: nat)
    ensures SettleTrade(env, s, taker.(id := id), maker, q) == SettleTrade(env, s, taker, maker, q)
  {
    hide Settle, SettleBalance, QuotePrice, CanPay, Quantities.TradeQuantity;
  }

  lemma PlaceIgnoresId(e: Exchange<Funds, Party>, order: Order<Party>, id: nat, kind: Kind, env: Env)
    requires Honest(TradeSettler(env)) && Resting(e.book)
    ensures Place(e, order.(id := id), kind, TradeSettler(env)) == Place(e, order, kind, TradeSettler(env))
  {
    hide MatchBook, TradeSettler;
    TradesIgnoreTakerId(env);
    BookIgnoresTakerId(Started(e, order), order, id, LimitOf(order, kind), TradeSettler(env));
  }

  /** Processing what was recorded does what processing the original did. */
  lemma RecordedReplays(rules: Rules, s: Trading, i: Item)
    requires Unread(rules) && Valid(s) && ApplyOrder(rules, s, i).Applied?
    ensures var r := ApplyOrder(rules, s, i);
      var again := ApplyOrder(rules, s, Recorded(i, r.item));
      again.Applied? && again.state == r.state
  {
    hide Place, TradeSettler, CancelBalances, RecordAll, Valid;
    var r := ApplyOrder(rules, s, i);
    var counted := s.(nonces := s.nonces[i.party.user := NonceOf(s, i.party.user) + 1]);
    CountedValid(s, counted);
    var j := Recorded(i, r.item);
    RecordedVerifies(rules, counted.funds, i, r.item);
    if rules.verify(counted.funds, i) && !i.cancel && Matchable(i) {
      TradesHonestly(rules.env);
      SaneShelf(counted, PairOf(i));
      PlaceIgnoresId(ExchangeOf(counted, PairOf(i)), OrderOf(i), j.orderId, i.kind, rules.env);
      assert j.party == i.party;
      assert OrderOf(j) == OrderOf(i).(id := j.orderId);
    }
  }

  lemma RecordedVerifies(rules: Rules, f: Funds, i: Item, processed: Item)
    requires Unread(rules) && (i.cancel ==> processed.orderId == i.orderId)
    ensures rules.verify(f, Recorded(i, processed)) == rules.verify(f, i)
  {
    var noted := i.(party := i.party.(extra := processed.party.extra));
    assert rules.verify(f, noted) == rules.verify(f, i);
    if !i.cancel {
      assert rules.verify(f, noted.(orderId := processed.orderId)) == rules.verify(f, noted);
      assert Recorded(i, processed) == noted.(orderId := processed.orderId);
    } else {
      assert Recorded(i, processed) == noted;
    }
  }

  /** ValidateTradingOrder: an order that does not apply makes the block invalid. */
  ghost function Replay(rules: Rules, s: Trading, items: seq<Item>): (r: Option<Trading>)
    requires Valid(s)
    ensures r.Some? ==> Valid(r.value)
    decreases |items|
  {
    if items == [] then Some(s)
    else
      match Replay(rules, s, items[..|items| - 1])
      case None => None
      case Some(before) =>
        ApplyKeepsValid(rules, before, items[|items| - 1]);
        var r := ApplyOrder(rules, before, items[|items| - 1]);
        if r.Applied? then Some(r.state) else None
  }

  lemma ReplayAppend(rules: Rules, s: Trading, items: seq<Item>, i: Item)
    requires Valid(s) && Replay(rules, s, items).Some? && ApplyOrder(rules, Replay(rules, s, items).value, i).Applied?
    ensures Replay(rules, s, items + [i]) == Some(ApplyOrder(rules, Replay(rules, s, items).value, i).state)
  {
    assert (items + [i])[..|items|] == items;
  }

  lemma {:induction false} ReplayFails(rules: Rules, s: Trading, items: seq<Item>, k: nat)
    requires Valid(s) && k <= |items| && Replay(rules, s, items[..k]).None?
    ensures Replay(rules, s, items).None?
    decreases |items| - k
  {
    if k == |items| {
      assert items[..k] == items;
    } else {
      assert items[..k + 1][..k] == items[..k];
      ReplayFails(rules, s, items, k + 1);
    }
  }

  // ----- prices over epochs

  /** The trades of an order in a pair. */
  ghost function FillsOf(rules: Rules, s: Trading, i: Item, p: Pair): (fills: seq<Fill>)
    requires Valid(s)
    ensures Trades(fills)
  {
    var counted := s.(nonces := s.nonces[i.party.user := NonceOf(s, i.party.user) + 1]);
    if p != PairOf(i) || !rules.verify(s.funds, i) || i.cancel || !Matchable(i) then []
    else
      CountedValid(s, counted);
      TradesHonestly(rules.env);
      SaneShelf(counted, p);
      PlacedFills(ExchangeOf(counted, p), OrderOf(i), i.kind, TradeSettler(rules.env));
      var placed := Place(ExchangeOf(counted, p), OrderOf(i), i.kind, TradeSettler(rules.env));
      if placed.Rejected? then [] else placed.run.fills
  }

  lemma ApplyRecords(rules: Rules, s: Trading, i: Item, p: Pair)
    requires Valid(s) && ApplyOrder(rules, s, i).Applied?
    ensures var r := ApplyOrder(rules, s, i).state;
      AverageOf(r, p) == RecordAll(AverageOf(s, p), FillsOf(rules, s, i, p)) && r.before == s.before
  {
    hide Place, TradeSettler, CancelBalances, Record, Valid;
  }

  /** The trades of a block of orders in a pair. */
  ghost function ReplayFills(rules: Rules, s: Trading, items: seq<Item>, p: Pair): (fills: seq<Fill>)
    requires Valid(s)
    ensures Trades(fills)
    decreases |items|
  {
    if items == [] then []
    else
      var n := |items| - 1;
      match Replay(rules, s, items[..n])
      case None => ReplayFills(rules, s, items[..n], p)
      case Some(before) => ReplayFills(rules, s, items[..n], p) + FillsOf(rules, before, items[n], p)
  }

  /** Over any number of orders the average of a pair is the average of all its trades. */
  lemma {:induction false} ReplayRecords(rules: Rules, s: Trading, items: seq<Item>, p: Pair)
    requires Valid(s) && Replay(rules, s, items).Some?
    ensures var r := Replay(rules, s, items).value;
      AverageOf(r, p) == RecordAll(AverageOf(s, p), ReplayFills(rules, s, items, p)) && r.before == s.before
    decreases |items|
  {
    hide ApplyOrder, FillsOf, Valid, RecordAll;
    if items == [] {
      RecordNone(AverageOf(s, p));
    } else {
      var n := |items| - 1;
      ReplayRecords(rules, s, items[..n], p);
      var before := Replay(rules, s, items[..n]).value;
      ApplyRecords(rules, before, items[n], p);
      RecordAllAppend(AverageOf(s, p), ReplayFills(rules, s, items[..n], p), FillsOf(rules, before, items[n], p));
    }
  }

  lemma RecordNone(a: Average)
    ensures RecordAll(a, []) == a
  {
  }

  function ClosedAverages(averages: map<Pair, Average>, pairs: set<Pair>): map<Pair, Average> {
    map p | p in averages.Keys + pairs :: if p in pairs then NOTHING else averages[p]
  }

  /** The pairs that traded. */
  predicate Traded(averages: map<Pair, Average>, pairs: set<Pair>, p: Pair) {
    p in pairs && p in averages && averages[p].price > 0
  }

  function ClosedBefore(averages: map<Pair, Average>, before: map<Pair, nat>, pairs: set<Pair>): map<Pair, nat> {
    map p | p in before.Keys + pairs && (p in before || Traded(averages, pairs, p)) ::
      if Traded(averages, pairs, p) then averages[p].price else before[p]
  }

  /** The end of an epoch: a pair that traded takes over its average, and every listed pair starts anew. */
  function CloseEpoch(s: Trading, pairs: set<Pair>): Trading {
    s.(averages := ClosedAverages(s.averages, pairs), before := ClosedBefore(s.averages, s.before, pairs))
  }

  /** Blocks of orders, epoch by epoch. */
  ghost function RunEpochs(rules: Rules, s: Trading, epochs: seq<seq<Item>>, pairs: set<Pair>): (r: Option<Trading>)
    requires Valid(s)
    ensures r.Some? ==> Valid(r.value)
    decreases |epochs|
  {
    if epochs == [] then Some(s)
    else
      match RunEpochs(rules, s, epochs[..|epochs| - 1], pairs)
      case None => None
      case Some(before) =>
        match Replay(rules, before, epochs[|epochs| - 1])
        case None => None
        case Some(after) =>
          ClosedValid(after, pairs);
          Some(CloseEpoch(after, pairs))
  }

  lemma ClosedValid(s: Trading, pairs: set<Pair>)
    requires Valid(s)
    ensures Valid(CloseEpoch(s, pairs))
  {
    var r := CloseEpoch(s, pairs);
    forall p | p in r.shelves ensures Sane(ExchangeOf(r, p)) {
      assert ExchangeOf(r, p) == ExchangeOf(s, p);
    }
  }

  /** The trades of a pair in every epoch. */
  ghost function EpochFills(
      rules: Rules, s: Trading, epochs: seq<seq<Item>>, pairs: set<Pair>, p: Pair): (r: seq<seq<Fill>>)
    requires Valid(s) && RunEpochs(rules, s, epochs, pairs).Some?
    ensures |r| == |epochs| && forall e | 0 <= e < |r| :: Trades(r[e])
    decreases |epochs|
  {
    if epochs == [] then []
    else
      var n := |epochs| - 1;
      EpochFills(rules, s, epochs[..n], pairs, p) +
      [ReplayFills(rules, RunEpochs(rules, s, epochs[..n], pairs).value, epochs[n], p)]
  }

  lemma {:induction false} EpochsKeep(rules: Rules, s: Trading, epochs: seq<seq<Item>>, pairs: set<Pair>, p: Pair)
    requires Valid(s) && RunEpochs(rules, s, epochs, pairs).Some? && p in pairs && AverageOf(s, p) == NOTHING
      && BeforeOf(s, p) == 0
    ensures var r := RunEpochs(rules, s, epochs, pairs).value;
      AverageOf(r, p) == NOTHING && BeforeOf(r, p) == Kept(EpochFills(rules, s, epochs, pairs, p))
    decreases |epochs|
  {
    hide Valid, Replay, ReplayFills, RecordAll;
    if epochs != [] {
      var n := |epochs| - 1;
      EpochsKeep(rules, s, epochs[..n], pairs, p);
      var before := RunEpochs(rules, s, epochs[..n], pairs).value;
      ReplayRecords(rules, before, epochs[n], p);
      var all := EpochFills(rules, s, epochs, pairs, p);
      assert all[..n] == EpochFills(rules, s, epochs[..n], pairs, p);
    }
  }

  /**
   The price a pair keeps at the end of an epoch is the average of its trades in the last epoch that had any, and lies
   between the lowest and the highest of them; without any trade it is zero.
   */
  lemma KeptPrice(rules: Rules, s: Trading, epochs: seq<seq<Item>>, pairs: set<Pair>, p: Pair) returns (e: nat)
    requires Valid(s) && RunEpochs(rules, s, epochs, pairs).Some? && p in pairs && AverageOf(s, p) == NOTHING
      && BeforeOf(s, p) == 0
    ensures var r, fills := RunEpochs(rules, s, epochs, pairs).value, EpochFills(rules, s, epochs, pairs, p);
      if forall i | 0 <= i < |epochs| :: fills[i] == [] then BeforeOf(r, p) == 0
      else
        && e < |epochs| && fills[e] != [] && (forall i | e < i < |epochs| :: fills[i] == [])
        && BeforeOf(r, p) == RecordAll(NOTHING, fills[e]).price && Within(fills[e], BeforeOf(r, p))
  {
    hide Valid, RunEpochs, EpochFills, Kept, Within, RecordAll;
    EpochsKeep(rules, s, epochs, pairs, p);
    e := KeptIsLast(EpochFills(rules, s, epochs, pairs, p));
  }

  // ----- conservation

  /**
   Who pays for a cancellation: the contract the masternode's owner, the user the relayer's owner; the deposit stays
   locked.
   */
  lemma CancelMoves(rules: Rules, f: Funds, order: Order<Party>, a: Account)
    requires Solvent(rules.env.contract, f.balances, f.deposits)
      && CanPay(f.deposits, order.data.exchange, RELAYER_CANCEL_FEE) && order.data.user != rules.env.contract
    requires var token := if order.side == Ask then order.data.base else order.data.quote;
      rules.cancelFee(f, order) <= TokenBalance(rules.env.tokens, f.balances, order.data.user, token)
    ensures var r, env, fee := CancelBalances(rules, f, order), rules.env, rules.cancelFee(f, order);
      var token := if order.side == Ask then order.data.base else order.data.quote;
      && BalanceOf(r.balances, a) == BalanceOf(f.balances, a)
           - (if a == Account(XDC_NATIVE, env.contract) then RELAYER_CANCEL_FEE else 0)
           + (if a == Account(XDC_NATIVE, env.masternodeOwner) then RELAYER_CANCEL_FEE else 0)
           - (if a == Account(token, order.data.user) then fee else 0)
           + (if a == Account(token, env.OwnerOf(order.data.exchange)) then fee else 0)
      && r.deposits == f.deposits[order.data.exchange := ValueOf(f.deposits, order.data.exchange) - RELAYER_CANCEL_FEE]
      && ValueOf(r.deposits, order.data.exchange) >= RELAYER_LOCKED_FUND
  {
    ValueAtMostTotal<Address>(f.deposits, order.data.exchange);
    hide TotalOf, Debit, Credit;
  }

  /** A cancellation moves fees between accounts and keeps every supply; the contract stays solvent. */
  lemma CancelConserves(rules: Rules, f: Funds, order: Order<Party>, t: Token)
    requires Solvent(rules.env.contract, f.balances, f.deposits)
      && CanPay(f.deposits, order.data.exchange, RELAYER_CANCEL_FEE) && Apart(rules.env, order.data)
    requires var token := if order.side == Ask then order.data.base else order.data.quote;
      rules.cancelFee(f, order) <= TokenBalance(rules.env.tokens, f.balances, order.data.user, token)
    ensures var r := CancelBalances(rules, f, order);
      Supply(r.balances, t) == Supply(f.balances, t) && Solvent(rules.env.contract, r.balances, r.deposits)
  {
    hide Supply, TotalOf;
    var env, fee := rules.env, rules.cancelFee(f, order);
    var token := if order.side == Ask then order.data.base else order.data.quote;
    var contract, master := Account(XDC_NATIVE, env.contract), Account(XDC_NATIVE, env.masternodeOwner);
    var user, owner := Account(token, order.data.user), Account(token, env.OwnerOf(order.data.exchange));
    var deposit := ValueOf(f.deposits, order.data.exchange);
    TotalWrite(f.deposits, order.data.exchange, deposit - RELAYER_CANCEL_FEE);
    TotalNonNegative(f.deposits[order.data.exchange := deposit - RELAYER_CANCEL_FEE]);
    SupplyDebit(f.balances, contract, RELAYER_CANCEL_FEE, t);
    var drawn := Debit(f.balances, contract, RELAYER_CANCEL_FEE);
    SupplyCredit(drawn, master, RELAYER_CANCEL_FEE, t);
    var paid := Credit(drawn, master, RELAYER_CANCEL_FEE);
    if Known(env.tokens, token) {
      SupplyDebit(paid, user, fee, t);
      SupplyCredit(Debit(paid, user, fee), owner, fee, t);
    }
  }

  ghost predicate AllApart(env: Env, s: Trading) {
    forall p | p in s.shelves :: AllFit(s.shelves[p].orders, (o: Party) => Apart(env, o))
  }

  lemma MatchConserves(rules: Rules, s: Trading, i: Item, t: Token)
    requires Valid(s) && Matchable(i) && AllApart(rules.env, s) && Apart(rules.env, i.party)
      && Solvent(rules.env.contract, s.funds.balances, s.funds.deposits)
    ensures var r := MatchOrder(rules, s, i).state;
      Supply(r.funds.balances, t) == Supply(s.funds.balances, t)
        && Solvent(rules.env.contract, r.funds.balances, r.funds.deposits) && AllApart(rules.env, r)
  {
    hide Place, TradeSettler, Supply, Solvent, RecordAll, Honest, SettleKeeps, Apart;
    var k := Supply(s.funds.balances, t);
    TradesHonestly(rules.env);
    TradesKeep(rules.env, t, k);
    SaneShelf(s, PairOf(i));
    ActKeeps(ExchangeOf(s, PairOf(i)), Submit(OrderOf(i), i.kind), TradeSettler(rules.env),
             (f: Funds, n: nat) => Supply(f.balances, t) == k && Solvent(rules.env.contract, f.balances, f.deposits),
                 (o: Party) => Apart(rules.env, o));
  }

  /** No order creates or destroys a token, whether it is refused, cancels, fails or trades. */
  lemma ApplyConserves(rules: Rules, s: Trading, i: Item, t: Token)
    requires Valid(s) && AllApart(rules.env, s) && Apart(rules.env, i.party)
      && Solvent(rules.env.contract, s.funds.balances, s.funds.deposits)
    ensures var r := ApplyOrder(rules, s, i);
      r.Applied? ==>
        && Supply(r.state.funds.balances, t) == Supply(s.funds.balances, t)
        && Solvent(rules.env.contract, r.state.funds.balances, r.state.funds.deposits) && AllApart(rules.env, r.state)
  {
    hide MatchOrder, Supply, Solvent, CancelBalances, Valid, Apart;
    var counted := s.(nonces := s.nonces[i.party.user := NonceOf(s, i.party.user) + 1]);
    CountedValid(s, counted);
    if !i.cancel && Matchable(i) {
      MatchConserves(rules, counted, i, t);
    }
    var shelf := ShelfOf(s, PairOf(i));
    if i.cancel && i.orderId in shelf.orders && CanPay(s.funds.deposits, i.party.exchange, RELAYER_CANCEL_FEE)
       && shelf.orders[i.orderId].data.exchange == i.party.exchange
    {
      var order := shelf.orders[i.orderId];
      var token := if order.side == Ask then order.data.base else order.data.quote;
      if rules.cancelFee(s.funds, order) <= TokenBalance(rules.env.tokens, s.funds.balances, order.data.user, token) {
        CancelConserves(rules, s.funds, order, t);
      }
    }
  }

  /** Replaying a block of orders keeps the supply of every token. */
  lemma {:induction false} ReplayConserves(rules: Rules, s: Trading, items: seq<Item>, t: Token)
    requires Valid(s) && AllApart(rules.env, s) && Solvent(rules.env.contract, s.funds.balances, s.funds.deposits)
    requires forall k | 0 <= k < |items| :: Apart(rules.env, items[k].party)
    ensures var r := Replay(rules, s, items);
      r.Some? ==>
        && Supply(r.value.funds.balances, t) == Supply(s.funds.balances, t)
        && Solvent(rules.env.contract, r.value.funds.balances, r.value.funds.deposits) && AllApart(rules.env, r.value)
    decreases |items|
  {
    hide ApplyOrder, Supply, Solvent, Valid, AllApart, Apart;
    if items != [] {
      var n := |items| - 1;
      ReplayConserves(rules, s, items[..n], t);
      var before := Replay(rules, s, items[..n]);
      if before.Some? {
        ApplyConserves(rules, before.value, items[n], t);
      }
    }
  }

  // ----- the loops in place

  /** ApplyOrder in place. */
  method Apply(rules: Rules, s: Trading, i: Item) returns (r: Result)
    requires Valid(s)
    ensures r == ApplyOrder(rules, s, i)
  {
    hide MatchOrder, CancelOrder, Valid;
    var user := i.party.user;
    var nonce := if user in s.nonces then s.nonces[user] else 0;
    if nonce < i.nonce { return NonceTooHigh; }
    if nonce > i.nonce { return NonceTooLow; }
    var counted := s.(nonces := s.nonces[user := nonce + 1]);
    CountedValid(s, counted);
    if !rules.verify(counted.funds, i) { return Applied(counted, i); }
    if i.cancel { return CancelOrder(rules, counted, i); }
    if i.kind != Market && (i.price == 0 || i.price >= WORD) { return Applied(counted, i); }
    if i.quantity == 0 || i.quantity >= WORD { return Applied(counted, i); }

    r := MatchOnBook(rules, counted, i);
  }

  /** The matching of an order on a fresh engine that holds the book of its pair. */
  method MatchOnBook(rules: Rules, s: Trading, i: Item) returns (r: Result)
    requires Valid(s) && Matchable(i)
    ensures r == MatchOrder(rules, s, i)
  {
    hide Place, MatchBook, TradeSettler, RecordAll, Valid, Honest, Uncrossed, Trades;
    var pair, shelf := PairOf(i), ShelfOf(s, PairOf(i));
    TradesHonestly(rules.env);
    SaneShelf(s, pair);
    var engine := new Engine<Funds, Party>(TradeSettler(rules.env), s.funds);
    engine.book, engine.lastId := shelf.orders, shelf.lastId;
    PlacedFills(ExchangeOf(s, pair), OrderOf(i), i.kind, TradeSettler(rules.env));
    var ok := engine.ProcessOrder(OrderOf(i), i.kind);
    if !ok { return Applied(s, i); }
    var average := RecordTrades(AverageOf(s, pair), engine.fills);
    r := Applied(s.(funds := engine.state, shelves := s.shelves[pair := Shelf(engine.book, engine.lastId)],
                    averages := s.averages[pair := average]),
                 if engine.lastId > shelf.lastId then i.(orderId := engine.lastId) else i);
  }

  /** UpdateMediumPriceBeforeEpoch, over the listed pairs in any order. */
  method UpdateMediumPriceBeforeEpoch(s: Trading, pairs: set<Pair>) returns (r: Trading)
    ensures r == CloseEpoch(s, pairs)
  {
    ClosesNone(s);
    hide CloseEpoch;
    r := s;
    var todo, done: set<Pair> := pairs, {};
    while todo != {}
      invariant todo + done == pairs && todo !! done && r == CloseEpoch(s, done)
      decreases |todo|
    {
      var pair :| pair in todo;
      todo := todo - {pair};
      CloseOne(s, done, pair);
      var price := AverageOf(r, pair).price;
      if price > 0 && price != BeforeOf(r, pair) {
        r := r.(before := r.before[pair := price]);
      }
      r := r.(averages := r.averages[pair := NOTHING]);
      done := done + {pair};
    }
    assert done == pairs;
  }

  lemma ClosesNone(s: Trading)
    ensures CloseEpoch(s, {}) == s
  {
    var r := CloseEpoch(s, {});
    assert r.averages == s.averages && r.before == s.before;
  }

  lemma CloseAverage(averages: map<Pair, Average>, done: set<Pair>, pair: Pair)
    ensures ClosedAverages(averages, done + {pair}) == ClosedAverages(averages, done)[pair := NOTHING]
  {
  }

  lemma CloseBefore(averages: map<Pair, Average>, before: map<Pair, nat>, done: set<Pair>, pair: Pair)
    requires pair !in done
    ensures var r := ClosedBefore(averages, before, done);
      ClosedBefore(averages, before, done + {pair}) ==
        if Traded(averages, {pair}, pair) then r[pair := averages[pair].price] else r
  {
    var r := ClosedBefore(averages, before, done);
    var next, after := ClosedBefore(averages, before, done + {pair}),
        if Traded(averages, {pair}, pair) then r[pair := averages[pair].price] else r;
    assert forall p | p != pair :: Traded(averages, done + {pair}, p) <==> Traded(averages, done, p);
    assert Traded(averages, done + {pair}, pair) <==> Traded(averages, {pair}, pair);
    assert next.Keys == after.Keys;
  }

  /** Closing one more pair. */
  lemma CloseOne(s: Trading, done: set<Pair>, pair: Pair)
    requires pair !in done
    ensures var r := CloseEpoch(s, done);
      var price := AverageOf(r, pair).price;
      CloseEpoch(s, done + {pair}) ==
        r.(averages := r.averages[pair := NOTHING],
           before := if price > 0 && price != BeforeOf(r, pair) then r.before[pair := price] else r.before)
  {
    CloseAverage(s.averages, done, pair);
    CloseBefore(s.averages, s.before, done, pair);
    var r := CloseEpoch(s, done);
    assert AverageOf(r, pair) == AverageOf(s, pair) && BeforeOf(r, pair) == BeforeOf(s, pair);
    hide ClosedAverages, ClosedBefore;
    if Traded(s.averages, {pair}, pair) && s.averages[pair].price == BeforeOf(r, pair) {
      assert r.before[pair := s.averages[pair].price] == r.before;
    }
  }

  datatype Pending = Pending(item: Item, decodable: bool)

  /**
   ProcessOrderPending: takes the next order of any account, drops an order whose nonce is too low and an account
   whose nonce is too high, and records every order that applied. An order whose signature does not decode stays where
   it is. What is recorded replays from the same start to the same end.
   */
  method ProcessOrderPending(
      rules: Rules, start: Trading, pending: map<Address, seq<Pending>>) returns (s: Trading, recorded: seq<Item>)
    requires Unread(rules) && Valid(start)
    ensures Replay(rules, start, recorded) == Some(s)
    ensures |recorded| <= MAXIMUM_MATCHES + 1
  {
    hide ApplyOrder, Valid, Replay, Unread;
    s, recorded := start, [];
    ReplayNone(rules, start);
    var queues: map<Address, seq<Pending>>, count := pending, 0;
    while count <= MAXIMUM_MATCHES
      invariant |recorded| <= count <= MAXIMUM_MATCHES + 1
      invariant Valid(s) && Replay(rules, start, recorded) == Some(s)
    {
      var live := set a | a in queues && queues[a] != [];
      if live == {} { break; }
      count := count + 1;
      var account: Address :| account in live;
      var head := queues[account][0];
      if !head.decodable { continue; }
      var r := Apply(rules, s, head.item);
      match r {
        case NonceTooLow => queues := queues[account := queues[account][1..]];
        case NonceTooHigh => queues := queues - {account};
        case Applied(after, processed) =>
          queues := queues[account := queues[account][1..]];
          RecordedReplays(rules, s, head.item);
          ReplayAppend(rules, start, recorded, Recorded(head.item, processed));
          ApplyKeepsValid(rules, s, head.item);
          recorded := recorded + [Recorded(head.item, processed)];
          s := after;
      }
    }
  }

  lemma ReplayNone(rules: Rules, s: Trading)
    requires Valid(s)
    ensures Replay(rules, s, []) == Some(s)
  {
  }

  method ValidateTradingOrder(rules: Rules, start: Trading, items: seq<Item>) returns (s: Trading, ok: bool)
    requires Valid(start)
    ensures Replay(rules, start, items) == if ok then Some(s) else None
  {
    hide ApplyOrder, Valid, Replay;
    s, ok := start, true;
    ReplayNone(rules, start);
    for k := 0 to |items|
      invariant Valid(s) && Replay(rules, start, items[..k]) == Some(s)
    {
      var r := Apply(rules, s, items[k]);
      ReplayStep(rules, start, items, k);
      ApplyKeepsValid(rules, s, items[k]);
      if !r.Applied? {
        ReplayFails(rules, start, items, k + 1);
        ok := false;
        return;
      }
      s := r.state;
    }
    assert items[..|items|] == items;
  }

  lemma ReplayStep(rules: Rules, s: Trading, items: seq<Item>, k: nat)
    requires Valid(s) && k < |items| && Replay(rules, s, items[..k]).Some?
    ensures var r := ApplyOrder(rules, Replay(rules, s, items[..k]).value, items[k]);
      Replay(rules, s, items[..k + 1]) == if r.Applied? then Some(r.state) else None
  {
    assert items[..k + 1][..k] == items[..k];
  }
}
