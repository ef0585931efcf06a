/**
 Runs of the lending engine: orders matched and cancelled on its books, repayments, top-ups, recalls and
 liquidations (XDCxlending/order_processor.go: ApplyOrder and the operations on open trades).

 The state database undoes a failed order from its journal. The insertion into the liquidation-time index is
 not journalled (XDCxlending/lendingstate/statedb.go), so a match that fails after it opened a trade leaves the
 trade's time entry behind, and opening the same trade id again at that time counts it twice.
 */
module LendingRuns {
  import opened Options
  import opened Sums
  import opened Division
  import opened Ledger
  import opened Matching
  import opened OrderBook
  import opened Quantities
  import opened BalanceOverlay
  import opened Relayers
  import opened LendingSettlement
  import L = LendingTrades
  import P = LoanPayments

  // ----- one match

  /** No trade has an id beyond the last one given out. */
  ghost predicate Fresh(s: Loans) {
    forall k | k in s.state.trades :: k.id <= ValueOf(s.nonces, k.book)
  }

  /**
   How a match changes the trades after opening n of them: both indexes and the cover of the lock account stay as
   exact as they were, and as soon as one trade is open its time entry is there.
   */
  ghost predicate Opened(book: nat, a: Loans, b: Loans, n: nat) {
    && Fresh(b) && ValueOf(b.nonces, book) == ValueOf(a.nonces, book) + n && KeepsTrades(a, b)
    && L.OutsideParties(b.state) && (forall token :: L.Slack(b.state, token) == L.Slack(a.state, token))
    && (L.Covered(a.state) ==> L.Covered(b.state)) && (L.Indexed(a.state) ==> L.Indexed(b.state))
    && a.state.times <= b.state.times && L.Insertions(b.state) == L.Insertions(a.state) + n
    && (n == 0 ==> b.state.times == a.state.times && b.state.surplus == a.state.surplus)
    && (n > 0 ==> HasEntry(b.state.times, L.Key(book, ValueOf(a.nonces, book) + 1)))
  }

  ghost predicate KeepsTrades(a: Loans, b: Loans) {
    forall k | k in a.state.trades :: k in b.state.trades && b.state.trades[k] == a.state.trades[k]
  }

  ghost predicate HasEntry(times: set<L.TimeEntry>, key: L.Key) {
    exists e :: e in times && e.key == key
  }

  /** Opening a trade whose collateral has just been locked keeps every slack. */
  lemma OpenKeepsSlack(s: L.State, b: Balances, key: L.Key, t: L.Trade)
    requires key !in s.trades && L.OutsideParties(s) && t.borrower != LENDING_LOCK && t.investor != LENDING_LOCK
    requires L.LockPays(s.balances, b, t.collateralToken, -(t.locked as int))
    ensures var r := L.OpenTrade(s.(balances := b), key, t);
      L.OutsideParties(r) && forall token :: L.Slack(r, token) == L.Slack(s, token)
  {
    var r := L.OpenTrade(s.(balances := b), key, t);
    forall token ensures L.Slack(r, token) == L.Slack(s, token) {
      L.ClaimedInsert(s.trades, key, t, token);
    }
  }

  lemma OpenedOne(env: Env, a: Loans, s: Loans, settled: Loans, t: L.Trade, n: nat)
    requires Opened(env.book, a, s, n) && t.borrower != LENDING_LOCK && t.investor != LENDING_LOCK
    requires settled.state == s.state.(balances := settled.state.balances) && settled.nonces == s.nonces
    requires L.LockPays(s.state.balances, settled.state.balances, t.collateralToken, -(t.locked as int))
    ensures Opened(env.book, a, Open(env, settled, t), n + 1)
  {
    hide Fresh, L.Covered, L.Indexed, L.Slack, L.OutsideParties, L.LockPays, L.Insertions, HasEntry;
    var key := L.Key(env.book, ValueOf(s.nonces, env.book) + 1);
    OpenFresh(env, s, settled, t);
    OpenKeepsSlack(s.state, settled.state.balances, key, t);
    BalancesAside(s.state, settled.state);
    OpenKeepsIndexes(settled.state, key, t);
    IndexedIsCovered(a.state);
    OpenedEntry(a, s, Open(env, settled, t), env.book, n, L.TimeEntry(t.liqTime, key));
  }

  /** The next id is free, and after opening a trade under it no id is beyond the last. */
  lemma OpenFresh(env: Env, s: Loans, settled: Loans, t: L.Trade)
    requires Fresh(s) && settled.state.trades == s.state.trades && settled.nonces == s.nonces
    ensures L.Key(env.book, ValueOf(s.nonces, env.book) + 1) !in s.state.trades && Fresh(Open(env, settled, t))
    ensures KeepsTrades(s, Open(env, settled, t))
  {
  }

  lemma OpenKeepsIndexes(s: L.State, key: L.Key, t: L.Trade)
    requires key !in s.trades
    ensures var r := L.OpenTrade(s, key, t);
      && (L.Covered(s) ==> L.Covered(r)) && (L.Indexed(s) ==> L.Indexed(r)) && L.Insertions(r) == L.Insertions(s) + 1
  {
    L.OpenCounts(s, key, t);
    IndexedIsCovered(s);
    hide L.Covered, L.Indexed, L.Insertions;
    if L.Covered(s) {
      L.OpenEffect(s, key, t);
    }
  }

  lemma IndexedIsCovered(s: L.State)
    ensures L.Indexed(s) ==> L.Covered(s)
  {
  }

  lemma BalancesAside(s: L.State, r: L.State)
    requires r == s.(balances := r.balances)
    ensures (L.Covered(s) ==> L.Covered(r)) && (L.Indexed(s) ==> L.Indexed(r)) && L.Insertions(r) == L.Insertions(s)
  {
  }

  lemma OpenedEntry(a: Loans, s: Loans, r: Loans, book: nat, n: nat, e: L.TimeEntry)
    requires n > 0 ==> HasEntry(s.state.times, L.Key(book, ValueOf(a.nonces, book) + 1))
    requires n == 0 ==> e.key == L.Key(book, ValueOf(a.nonces, book) + 1)
    requires r.state.times == s.state.times + {e}
    ensures HasEntry(r.state.times, L.Key(book, ValueOf(a.nonces, book) + 1))
  {
    if n > 0 {
      var first :| first in s.state.times && first.key == L.Key(book, ValueOf(a.nonces, book) + 1);
      assert first in r.state.times;
    } else {
      assert e in r.state.times;
    }
  }

  lemma LoansKeep(env: Env, a: Loans)
    requires LockApart(env)
    ensures SettleKeeps(LoanSettler(env), (s: Loans, n: nat) => Opened(env.book, a, s, n), (p: Party) => Outsider(p))
  {
    hide SettleLoan, Opened;
    forall s: Loans, taker: Order<Party>, maker: Order<Party>, q: nat | Outsider(taker.data) && Outsider(maker.data)
      ensures KeptAt((s: Loans, n: nat) => Opened(env.book, a, s, n), s, LoanSettler(env)(s, taker, maker, q))
    {
      var r := SettleLoan(env, s, taker, maker, q);
      var t, settled := LoanOpens(env, s, taker, maker, q);
      if r.Settled? && r.traded > 0 {
        forall n: nat | Opened(env.book, a, s, n) ensures Opened(env.book, a, r.state, n + 1) {
          OpenedOne(env, a, s, settled, t, n);
        }
      }
    }
  }

  /** Matching an order opens one trade per fill, whether it ends well or fails. */
  lemma MatchOpens(env: Env, e: Exchange<Loans, Party>, order: Order<Party>, kind: Kind)
    requires LockApart(env) && Resting(e.book) && AllFit(e.book, (p: Party) => Outsider(p)) && Outsider(order.data)
    requires Fresh(e.state) && L.OutsideParties(e.state.state)
    ensures Honest(LoanSettler(env))
    ensures var p := Place(e, order, kind, LoanSettler(env));
      && Opened(env.book, e.state, p.run.state, |p.run.fills|)
      && (p.Placed? ==> p.exchange.state == p.run.state && AllFit(p.exchange.book, (p: Party) => Outsider(p)))
  {
    hide MatchBook, Opened, SettleKeeps, Honest, LoanSettler;
    LendsHonestly(env);
    LoansKeep(env, e.state);
    assert Opened(env.book, e.state, e.state, 0) by { OpenedNone(env.book, e.state); }
    BookKeeps(Started(e, order), order, LimitOf(order, kind), LoanSettler(env),
              (s: Loans, n: nat) => Opened(env.book, e.state, s, n), (p: Party) => Outsider(p));
  }

  lemma OpenedNone(book: nat, s: Loans)
    requires Fresh(s) && L.OutsideParties(s.state)
    ensures Opened(book, s, s, 0)
  {
  }

  /** What the revert restores: everything but the time index. */
  function Undone(before: Loans, at: Loans): Loans {
    before.(state := before.state.(times := at.state.times, surplus := at.state.surplus))
  }

  /**
   After a failed match both indexes are exact exactly when it had filled nothing; every open trade stays indexed, and
   every fill stays counted in the time index.
   */
  lemma FailedMatchIndex(book: nat, before: Loans, at: Loans, fills: nat)
    requires Fresh(before) && Opened(book, before, at, fills)
    ensures L.Indexed(before.state) ==> (L.Indexed(Undone(before, at).state) <==> fills == 0)
    ensures L.Covered(before.state) ==> L.Covered(Undone(before, at).state)
    ensures L.Insertions(Undone(before, at).state) == L.Insertions(before.state) + fills
  {
    if fills > 0 {
      var e :| e in at.state.times && e.key == L.Key(book, ValueOf(before.nonces, book) + 1);
      assert e.key !in before.state.trades;
      assert e in L.Strays(Undone(before, at).state);
    }
  }

  // ----- runs

  datatype Shelf = Shelf(orders: Book<Party>, lastId: nat)

  /** The whole lending state: trades, balances and deposits, and the resting orders of every book. */
  datatype Lending = Lending(loans: Loans, shelves: map<nat, Shelf>)

  /** One step of a block. A match and a cancellation name their book through their environment. */
  datatype Action =
    | Match(env: Env, order: Order<Party>, kind: Kind)
    | Cancel(env: Env, id: nat, user: Address, hash: nat, fee: nat)
    | Repay(block: L.Env, key: L.Key)
    | TopUp(key: L.Key, quantity: nat)
    | AutoTopUp(key: L.Key, price: nat)
    | Recall(key: L.Key, price: nat)
    | Liquidate(key: L.Key)
    | Expire(block: L.Env, key: L.Key)
  {
    predicate OnTrade() { !Match? && !Cancel? }
  }

  function ShelfOf(l: Lending, book: nat): Shelf {
    if book in l.shelves then l.shelves[book] else Shelf(map[], 0)
  }

  function ExchangeOf(l: Lending, book: nat): Exchange<Loans, Party> {
    Exchange(ShelfOf(l, book).orders, ShelfOf(l, book).lastId, l.loans)
  }

  ghost predicate Orderly(shelf: Shelf) {
    && Resting(shelf.orders) && Uncrossed(shelf.orders) && (forall id | id in shelf.orders :: id <= shelf.lastId)
    && AllFit(shelf.orders, (p: Party) => Outsider(p))
  }

  /** What every step keeps. */
  ghost predicate Valid(l: Lending) {
    && L.Covered(l.loans.state) && Fresh(l.loans) && L.OutsideParties(l.loans.state) && L.Backed(l.loans.state)
    && forall b | b in l.shelves :: Orderly(l.shelves[b])
  }

  /** The lock account is never a party, a relayer owner or the masternode owner. */
  ghost predicate Proper(a: Action) {
    (a.Match? ==> LockApart(a.env) && Outsider(a.order.data)) && (a.Cancel? ==> LockApart(a.env))
  }

  /** A step on an open trade; the node stops in a step that divides by zero. */
  function TradeStep(s: L.State, a: Action): L.Step
    requires a.OnTrade()
  {
    match a
    case Repay(block, key) => L.RepayTrade(s, block, key)
    case TopUp(key, quantity) => L.TopUpTrade(s, key, quantity)
    case AutoTopUp(key, price) => L.AutoTopUp(s, key, price)
    case Recall(key, price) => L.RecallTrade(s, key, price)
    case Liquidate(key) => L.LiquidateTrade(s, key)
    case Expire(block, key) => L.LiquidateExpired(s, block, key)
  }

  /** The matching of an order; an order without quantity or rate is not matched. */
  ghost function MatchOrder(l: Lending, a: Action): Placed<Loans, Party>
    requires Valid(l) && a.Match?
  {
    LendsHonestly(a.env);
    OrderlyShelf(l, a.env.book);
    Place(ExchangeOf(l, a.env.book), a.order, a.kind, LoanSettler(a.env))
  }

  predicate Matchable(a: Action)
    requires a.Match?
  {
    a.order.quantity > 0 && (a.kind == Limit ==> a.order.price > 0)
  }

  /** Only the order's own user can cancel it, and only where the fees can be paid. */
  predicate Cancels(l: Lending, a: Action)
    requires a.Cancel?
  {
    var orders := ShelfOf(l, a.env.book).orders;
    && a.id in orders && orders[a.id].data.hash == a.hash && orders[a.id].data.user == a.user
    && Cancellable(a.env, l.loans, orders[a.id], a.fee)
  }

  ghost function Act(l: Lending, a: Action): Lending
    requires Valid(l)
  {
    if a.Match? then
      if !Matchable(a) then l
      else
        match MatchOrder(l, a)
        case Rejected(run) => l.(loans := Undone(l.loans, run.state))
        case Placed(after, _) => Lending(after.state, l.shelves[a.env.book := Shelf(after.book, after.lastId)])
    else if a.Cancel? then
      if !Cancels(l, a) then l
      else
        var shelf := ShelfOf(l, a.env.book);
        Lending(CancelLoans(a.env, l.loans, shelf.orders[a.id], a.fee),
                l.shelves[a.env.book := Shelf(shelf.orders - {a.id}, shelf.lastId)])
    else
      match TradeStep(l.loans.state, a)
      case Panicked => l
      case Step(after, _) => l.(loans := l.loans.(state := after))
  }

  lemma OrderlyShelf(l: Lending, book: nat)
    requires Valid(l)
    ensures Orderly(ShelfOf(l, book)) && Sane(ExchangeOf(l, book))
  {
  }

  function KeyOf(a: Action): L.Key
    requires a.OnTrade()
  {
    a.key
  }

  lemma StepEffect(s: L.State, a: Action)
    requires L.Covered(s) && L.OutsideParties(s) && L.Backed(s) && a.OnTrade()
    ensures L.TradeEffect(s, KeyOf(a), TradeStep(s, a)) && L.KeepsSlack(s, TradeStep(s, a))
      && P.StepWithin(s, KeyOf(a), TradeStep(s, a))
  {
    hide L.Covered, L.KeepsSlack, L.TradeEffect, L.OutsideParties, L.Backed, P.StepWithin;
    hide L.RepayTrade, L.TopUpTrade, L.AutoTopUp, L.RecallTrade, L.LiquidateTrade, L.LiquidateExpired;
    match a
    case Repay(block, key) => L.RepayKeepsSlack(s, block, key); L.RepayEffect(s, block, key);
      P.RepayWithin(s, block, key);
    case TopUp(key, quantity) => L.TopUpKeepsSlack(s, key, quantity); L.TopUpEffect(s, key, quantity);
      P.TopUpWithin(s, key, quantity);
    case AutoTopUp(key, price) => L.AutoTopUpKeepsSlack(s, key, price); L.AutoTopUpEffect(s, key, price);
      P.AutoTopUpWithin(s, key, price);
    case Recall(key, price) => L.RecallKeepsSlack(s, key, price); L.RecallEffect(s, key, price);
      P.RecallWithin(s, key, price);
    case Liquidate(key) => L.LiquidateKeepsSlack(s, key); L.LiquidateEffect(s, key); P.LiquidateWithin(s, key);
    case Expire(block, key) => L.ExpiredKeepsSlack(s, block, key); L.ExpiredEffect(s, block, key);
      P.ExpiredWithin(s, block, key);
  }

  ghost predicate SameSlack(a: L.State, b: L.State) {
    forall token :: L.Slack(b, token) == L.Slack(a, token)
  }

  lemma TradeStepKeeps(l: Lending, a: Action)
    requires Valid(l) && a.OnTrade()
    ensures Valid(Act(l, a)) && SameSlack(l.loans.state, Act(l, a).loans.state)
    ensures L.SameResidue(l.loans.state, Act(l, a).loans.state)
  {
    hide TradeStep, L.Slack, L.Covered, L.Strays, P.StepWithin, Orderly;
    var s := l.loans.state;
    StepEffect(s, a);
    var r := TradeStep(s, a);
    if r.Step? {
      assert r.state.trades.Keys <= s.trades.Keys;
    }
  }

  lemma CancelKeeps(l: Lending, a: Action)
    requires Valid(l) && a.Cancel? && Proper(a)
    ensures Valid(Act(l, a)) && SameSlack(l.loans.state, Act(l, a).loans.state)
    ensures L.SameResidue(l.loans.state, Act(l, a).loans.state)
  {
    if Cancels(l, a) {
      var shelf := ShelfOf(l, a.env.book);
      OrderlyShelf(l, a.env.book);
      CancelOrderly(shelf, a.id);
      var order := shelf.orders[a.id];
      assert Outsider(order.data);
      forall token ensures BalanceOf(CancelBalances(a.env, l.loans.state.balances, order, a.fee),
                                     Account(token, LENDING_LOCK))
        == BalanceOf(l.loans.state.balances, Account(token, LENDING_LOCK)) {
        CancelLeavesLock(a.env, l.loans.state.balances, order, a.fee, token);
      }
      BalancesAside(l.loans.state, Act(l, a).loans.state);
      hide CancelBalances, Orderly, L.Covered, L.Strays, Cancellable;
      var r := Act(l, a);
      forall token ensures L.Slack(r.loans.state, token) == L.Slack(l.loans.state, token) {
        assert BalanceOf(r.loans.state.balances, Account(token, LENDING_LOCK)) ==
          BalanceOf(l.loans.state.balances, Account(token, LENDING_LOCK));
      }
      hide L.Slack;
      assert forall b | b in r.shelves :: Orderly(r.shelves[b]);
    }
  }

  lemma CancelOrderly(shelf: Shelf, id: nat)
    requires Orderly(shelf)
    ensures Orderly(Shelf(shelf.orders - {id}, shelf.lastId))
  {
  }

  /** A step on a trade leaves the others as they are. */
  lemma StepSpares(l: Lending, a: Action, k: L.Key)
    requires Valid(l) && a.OnTrade() && k in l.loans.state.trades && k != KeyOf(a)
    ensures var after := Act(l, a).loans.state.trades; k in after && after[k] == l.loans.state.trades[k]
  {
    hide TradeStep, L.Slack, L.Covered, P.StepWithin, L.SameResidue;
    StepEffect(l.loans.state, a);
  }

  /** Matching and cancelling orders opens trades and changes none, whether the match ends well or is undone. */
  lemma OrdersKeepTrades(l: Lending, a: Action)
    requires Valid(l) && Proper(a) && !a.OnTrade()
    ensures KeepsTrades(l.loans, Act(l, a).loans)
  {
    hide L.Covered, Place, L.Indexed, Fresh, LoanSettler, L.Slack, Cancels, CancelBalances;
    if a.Match? && Matchable(a) {
      OrderlyShelf(l, a.env.book);
      MatchOpens(a.env, ExchangeOf(l, a.env.book), a.order, a.kind);
    }
  }

  /** A match that fails after a fill is the one step that leaves a stale time entry. */
  ghost predicate Spoils(l: Lending, a: Action)
    requires Valid(l)
  {
    a.Match? && Matchable(a) && MatchOrder(l, a).Rejected? && MatchOrder(l, a).run.fills != []
  }

  lemma MatchKeeps(l: Lending, a: Action)
    requires Valid(l) && a.Match? && Proper(a)
    ensures Valid(Act(l, a)) && SameSlack(l.loans.state, Act(l, a).loans.state)
    ensures L.Indexed(l.loans.state) ==> (L.Indexed(Act(l, a).loans.state) <==> !Spoils(l, a))
  {
    hide L.Covered, Place, L.Indexed, L.OutsideParties, Fresh, LoanSettler, L.Slack;
    if Matchable(a) {
      var e := ExchangeOf(l, a.env.book);
      OrderlyShelf(l, a.env.book);
      MatchOpens(a.env, e, a.order, a.kind);
      PlaceKeepsSane(e, a.order, a.kind, LoanSettler(a.env));
      var p := MatchOrder(l, a);
      if p.Rejected? {
        FailedMatchIndex(a.env.book, l.loans, p.run.state, |p.run.fills|);
        UndoneKeeps(l.loans, p.run.state);
      }
    }
  }

  lemma UndoneKeeps(before: Loans, at: Loans)
    ensures SameSlack(before.state, Undone(before, at).state)
    ensures Fresh(before) ==> Fresh(Undone(before, at))
    ensures L.OutsideParties(before.state) ==> L.OutsideParties(Undone(before, at).state)
  {
  }

  /** One step keeps everything valid and every slack, and keeps the indexes exact unless it is a spoiling match. */
  lemma ActKeeps(l: Lending, a: Action)
    requires Valid(l) && Proper(a)
    ensures Valid(Act(l, a)) && SameSlack(l.loans.state, Act(l, a).loans.state)
    ensures L.Indexed(l.loans.state) ==> (L.Indexed(Act(l, a).loans.state) <==> !Spoils(l, a))
    ensures !a.Match? ==> L.SameResidue(l.loans.state, Act(l, a).loans.state)
  {
    hide Act, L.Strays, SameSlack;
    if a.Match? {
      MatchKeeps(l, a);
    } else if a.Cancel? {
      CancelKeeps(l, a);
    } else {
      TradeStepKeeps(l, a);
    }
    hide L.Covered;
  }

  ghost function ActAll(l: Lending, actions: seq<Action>): Lending
    requires Valid(l) && forall i | 0 <= i < |actions| :: Proper(actions[i])
    decreases |actions|
  {
    if actions == [] then l
    else
      ActKeeps(l, actions[0]);
      ActAll(Act(l, actions[0]), actions[1..])
  }

  // ----- matches that cannot fail

  /** What keeps settlements from failing: the contract owns the deposits and is no party, and supplies are ample. */
  ghost predicate Funded(contract: Address, s: Loans) {
    && contract != LENDING_LOCK && Solvent(contract, s.state.balances, s.deposits) && Ample(s.state.balances)
    && forall k | k in s.state.trades ::
      s.state.trades[k].borrower != contract && s.state.trades[k].investor != contract
  }

  /**
   What can be told of a step before it: a match can only reach willing makers, and the registration contract
   neither orders nor cancels. Where the native coin counts too, the masternode's owner takes no part.
   */
  ghost predicate Ready(contract: Address, l: Lending, a: Action, native: bool) {
    && (a.Match? && Matchable(a) ==>
          && a.env.contract == contract && a.order.data.user != contract
          && ReachAgrees(ShelfOf(l, a.env.book).orders, a.order.side.Other(), LimitOf(a.order, a.kind),
                         (p: Party) => Agreeable(a.env, a.order, p, native)))
    && (a.Cancel? ==> a.env.contract == contract && a.user != contract)
  }

  predicate Agreeable(env: Env, taker: Order<Party>, maker: Party, native: bool) {
    Willing(env, taker, maker) && (native ==> RewardApart(env, taker.data, maker))
  }

  /** No supply of a token moves, of the native coin where it counts. */
  ghost predicate SameSupply(a: Balances, b: Balances, native: bool) {
    forall t: Token | t != XDC_NATIVE || native :: Supply(b, t) == Supply(a, t)
  }

  lemma LoanStaysFunded(
      env: Env, s: Loans, start: Balances, taker: Order<Party>, maker: Order<Party>, q: nat, native: bool)
    requires LockApart(env) && Outsider(taker.data) && Outsider(maker.data) && taker.data.user != env.contract
    requires Funded(env.contract, s) && SameSupply(start, s.state.balances, native)
      && Agreeable(env, taker, maker.data, native)
    ensures var r := SettleLoan(env, s, taker, maker, q);
      !r.Failure? && (r.Settled? ==> Funded(env.contract, r.state) && SameSupply(start, r.state.state.balances, native))
  {
    hide SettleLoan, Supply, Solvent;
    LoanNeverFails(env, s, taker, maker, q);
    var t, settled := LoanOpens(env, s, taker, maker, q);
    assert maker.data.user != env.contract;
  }

  lemma LoansAreSmooth(env: Env, start: Balances, taker: Order<Party>, native: bool)
    requires LockApart(env) && Outsider(taker.data) && taker.data.user != env.contract
    ensures Smooth(LoanSettler(env), taker, (s: Loans) => Funded(env.contract, s)
                   && SameSupply(start, s.state.balances, native),
                   (p: Party) => Agreeable(env, taker, p, native) && Outsider(p))
  {
    hide SettleLoan, Funded, SameSupply, Agreeable;
    forall s: Loans, maker: Order<Party>, q: nat
      | Funded(env.contract, s) && SameSupply(start, s.state.balances, native)
        && Agreeable(env, taker, maker.data, native) && Outsider(maker.data)
      ensures SmoothAt((s: Loans) => Funded(env.contract, s) && SameSupply(start, s.state.balances, native),
                       LoanSettler(env)(s, taker, maker, q))
    {
      LoanStaysFunded(env, s, start, taker, maker, q, native);
    }
  }

  /** A match that can only reach willing makers is never undone, and keeps every supply. */
  lemma ReadyMatch(contract: Address, l: Lending, a: Action, native: bool)
    requires Valid(l) && Proper(a) && a.Match? && Matchable(a) && Funded(contract, l.loans)
      && Ready(contract, l, a, native)
    ensures var p := MatchOrder(l, a);
      p.Placed? && Funded(contract, p.run.state)
        && SameSupply(l.loans.state.balances, p.run.state.state.balances, native)
  {
    hide Valid, Smooth, MatchBook, Funded, SameSupply, Agreeable, LoanSettler;
    var e, start := ExchangeOf(l, a.env.book), l.loans.state.balances;
    OrderlyShelf(l, a.env.book);
    LendsHonestly(a.env);
    LoansAreSmooth(a.env, start, a.order, native);
    assert SameSupply(start, start, native) by { SupplySame(start, native); }
    var agrees := (p: Party) => Agreeable(a.env, a.order, p, native) && Outsider(p);
    AgreesBoth(e.book, a.order.side.Other(), LimitOf(a.order, a.kind),
               (p: Party) => Agreeable(a.env, a.order, p, native), (p: Party) => Outsider(p), agrees);
    BookNeverFails(Started(e, a.order), a.order, LimitOf(a.order, a.kind), LoanSettler(a.env),
                   (s: Loans) => Funded(a.env.contract, s) && SameSupply(start, s.state.balances, native), agrees);
  }

  lemma SupplySame(b: Balances, native: bool)
    ensures SameSupply(b, b, native)
  {
  }

  lemma AgreesBoth<P>(book: Book<P>, makers: Side, limit: Option<nat>, p: P -> bool, q: P -> bool, both: P -> bool)
    requires ReachAgrees(book, makers, limit, p) && AllFit(book, q) && forall x: P :: both(x) <==> p(x) && q(x)
    ensures ReachAgrees(book, makers, limit, both)
  {
  }

  lemma FundedStep(contract: Address, l: Lending, a: Action, native: bool)
    requires Valid(l) && a.OnTrade() && Funded(contract, l.loans)
    ensures Funded(contract, Act(l, a).loans) && SameSupply(l.loans.state.balances, Act(l, a).loans.state.balances,
                                                            native)
  {
    hide TradeStep, L.Slack, L.Covered, L.Strays, Supply, TotalOf, Orderly, L.SameResidue;
    var s := l.loans.state;
    StepEffect(s, a);
    var r := TradeStep(s, a);
    if r.Step? && KeyOf(a) in s.trades {
      assert P.Within(s.balances, r.state.balances, s.trades[KeyOf(a)]);
    }
  }

  lemma FundedCancel(contract: Address, l: Lending, a: Action, native: bool)
    requires Valid(l) && a.Cancel? && Funded(contract, l.loans) && Ready(contract, l, a, native)
    ensures Funded(contract, Act(l, a).loans) && SameSupply(l.loans.state.balances, Act(l, a).loans.state.balances,
                                                            native)
  {
    if Cancels(l, a) {
      CancelConserves(a.env, l.loans, ShelfOf(l, a.env.book).orders[a.id], a.fee);
      hide Supply, Solvent, CancelBalances, Cancellable;
    }
  }

  /** A ready step never spoils the time index, and stays funded with the supply of every token kept. */
  lemma ReadyKeeps(contract: Address, l: Lending, a: Action, native: bool)
    requires Valid(l) && Proper(a) && Funded(contract, l.loans) && Ready(contract, l, a, native)
    ensures !Spoils(l, a)
    ensures Funded(contract, Act(l, a).loans) && SameSupply(l.loans.state.balances, Act(l, a).loans.state.balances,
                                                            native)
  {
    hide Valid, Funded, SameSupply, Ready, Place, Cancels;
    SupplySame(l.loans.state.balances, native);
    if a.Match? {
      if Matchable(a) {
        ReadyMatch(contract, l, a, native);
        OrderlyShelf(l, a.env.book);
        LendsHonestly(a.env);
        PlacedState(ExchangeOf(l, a.env.book), a.order, a.kind, LoanSettler(a.env));
      }
    } else if a.Cancel? {
      FundedCancel(contract, l, a, native);
    } else {
      FundedStep(contract, l, a, native);
    }
  }

  lemma PlacedState<S(!new), P(!new)>(e: Exchange<S, P>, order: Order<P>, kind: Kind, settle: Settler<S, P>)
    requires Honest(settle) && Sane(e)
    ensures var p := Place(e, order, kind, settle); p.Placed? ==> p.exchange.state == p.run.state
  {
    PlaceRests(e, order, kind, settle);
  }

  ghost predicate AllReady(contract: Address, l: Lending, actions: seq<Action>, native: bool)
    requires Valid(l) && forall i | 0 <= i < |actions| :: Proper(actions[i])
    decreases |actions|
  {
    actions == [] ||
    (Ready(contract, l, actions[0], native) && (ActKeeps(l, actions[0]);
      AllReady(contract, Act(l, actions[0]), actions[1..], native)))
  }

  /**
   Over any run the lock account's balance of each collateral token minus what the open trades lock is constant, so
   it always covers them, every open trade stays indexed and no book is crossed. If every match of the run can only
   reach willing makers, no match is undone, both indexes hold nothing but the open trades, and the supply of every
   token is what it was; so is that of the native coin, if the masternode's owner takes no part in a match.
   */
  lemma {:induction false} RunKeepsCollateral(contract: Address, l: Lending, actions: seq<Action>, native: bool)
    requires Valid(l) && forall i | 0 <= i < |actions| :: Proper(actions[i])
    ensures Valid(ActAll(l, actions)) && SameSlack(l.loans.state, ActAll(l, actions).loans.state)
    ensures Funded(contract, l.loans) && AllReady(contract, l, actions, native) ==>
      && Funded(contract, ActAll(l, actions).loans)
      && SameSupply(l.loans.state.balances, ActAll(l, actions).loans.state.balances, native)
      && (L.Indexed(l.loans.state) ==> L.Indexed(ActAll(l, actions).loans.state))
    decreases |actions|
  {
    hide Act, Valid, L.Indexed, Spoils, Proper, Ready, Funded, Supply, L.SameResidue;
    if actions != [] {
      ActKeeps(l, actions[0]);
      if Funded(contract, l.loans) && AllReady(contract, l, actions, native) {
        ReadyKeeps(contract, l, actions[0], native);
      }
      RunKeepsCollateral(contract, Act(l, actions[0]), actions[1..], native);
    }
  }

  /**
   In every reachable state a refused step on a trade, such as a rejected repayment or top-up, changes nothing at all.
   */
  lemma RefusedChangesNothing(l: Lending, actions: seq<Action>, a: Action)
    requires Valid(l) && (forall i | 0 <= i < |actions| :: Proper(actions[i])) && a.OnTrade()
    ensures var now := ActAll(l, actions); var r := TradeStep(now.loans.state, a);
      Valid(now) && (r.Step? && r.outcome.Refused? ==> Act(now, a) == now)
  {
    RunKeepsCollateral(0, l, actions, false);
    StepEffect(ActAll(l, actions).loans.state, a);
    hide TradeStep, ActAll;
  }
}
