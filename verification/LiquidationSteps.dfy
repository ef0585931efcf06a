/**
 What the steps of the epoch liquidation pass keep (XDCxlending/XDCxlending.go, ProcessLiquidationData): the
 relations between the state before a phase and the state on its way.
 */
module LiquidationSteps {
  import opened Division
  import opened Sums
  import opened Ledger
  import opened LendingTrades
  import opened LoanPayments
  import opened TopUpArithmetic

  /**
   How a phase ends: it returns; it returns an error; its loop goes round without changing anything any more; or
   it divides by zero, which halts the node.
   */
  datatype Pass = Finished | Failed | Stuck | Halted

  /** No trade appears, and a surviving trade only changes its locked amount and liquidation price. */
  ghost predicate Evolves(a: State, b: State) {
    && b.trades.Keys <= a.trades.Keys
    && forall k | k in b.trades ::
      b.trades[k] == a.trades[k].(locked := b.trades[k].locked, liqPrice := b.trades[k].liqPrice)
  }

  ghost predicate SameSlack(a: State, b: State) {
    forall token :: Slack(a, token) == Slack(b, token)
  }

  /** What every reachable lending state keeps; the time index may hold more than the open trades. */
  ghost predicate Sound(s: State) {
    Covered(s) && OutsideParties(s) && Backed(s)
  }

  /** Settling an expired trade at the collateral price divides by the liquidation rate. */
  ghost predicate LiquidationRatesSet(trades: map<Key, Trade>, env: Env) {
    forall k | k in trades && env.PriceOf(trades[k].Market()) > 0 ::
      env.RatesOf(trades[k].collateralToken).liquidation > 0
  }

  /** Steps that keep the slack of every token keep the lock account sufficient. */
  lemma SlackTransitive(a: State, b: State, c: State)
    requires SameSlack(a, b) && Backed(b) && SameSlack(b, c)
    ensures SameSlack(a, c) && Backed(c)
  {
    forall token ensures Slack(a, token) == Slack(c, token) && Slack(c, token) >= 0 {
      assert Slack(a, token) == Slack(b, token);
      assert Slack(b, token) == Slack(c, token);
    }
  }

  lemma SubsetSmaller<T>(a: set<T>, b: set<T>)
    requires a < b
    ensures |a| < |b|
  {
    assert b == a + (b - a);
    assert |b| == |a| + |b - a|;
  }

  // ----- the time phase

  ghost function Expired(trades: map<Key, Trade>, book: Book, now: nat): set<Key> {
    set k | k in trades && k.book == book && trades[k].liqTime < now
  }

  /** A time of the book before now lists a trade that is not open, or is open until another time. */
  ghost predicate HasStray(s: State, book: Book, now: nat) {
    exists e :: e in Strays(s) && e.key.book == book && 0 < e.time < now
  }

  /** A time of the book before now was inserted more often than it lists trades. */
  ghost predicate HasSurplus(s: State, book: Book, now: nat) {
    exists x :: x in s.surplus && x.book == book && 0 < x.time < now
  }

  /** Time zero is in use, which the loop takes for an empty index. */
  ghost predicate ZeroSlot(s: State, book: Book) {
    (exists e :: e in s.times && e.key.book == book && e.time == 0) || Slot(book, 0) in s.surplus
  }

  /** Whether the loop over the expired times of a book returns without an error. */
  ghost predicate BookClears(s: State, book: Book, now: nat) {
    ZeroSlot(s, book) || (!HasStray(s, book, now) && !HasSurplus(s, book, now))
  }

  /** The lowest time in a book's index together with its keys; zero and no key for an empty index. */
  ghost predicate LowestTime(s: State, book: Book, lowest: nat, keys: set<Key>) {
    && (forall e | e in s.times && e.key.book == book :: lowest <= e.time)
    && (forall x | x in s.surplus && x.book == book :: lowest <= x.time)
    && keys == (set e | e in s.times && e.key.book == book && e.time == lowest :: e.key)
    && (keys == {} && Slot(book, lowest) !in s.surplus ==>
          lowest == 0 && (forall e | e in s.times :: e.key.book != book)
            && (forall x | x in s.surplus :: x.book != book))
  }

  lemma LowestOf(s: State, book: Book, slots: set<nat>, lowest: nat, keys: set<Key>)
    requires slots == (set e | e in s.times && e.key.book == book :: e.time)
      + (set x | x in s.surplus && x.book == book :: x.time)
    requires if slots == {} then lowest == 0 else lowest in slots && forall t | t in slots :: lowest <= t
    requires keys == set e | e in s.times && e.key.book == book && e.time == lowest :: e.key
    ensures LowestTime(s, book, lowest, keys)
  {
    forall e | e in s.times && e.key.book == book ensures e.time in slots {
    }
    forall x | x in s.surplus && x.book == book ensures x.time in slots {
    }
    if keys == {} && Slot(book, lowest) !in s.surplus {
      forall e | e in s.times && e.key.book == book ensures e.time != lowest {
        assert e.time == lowest ==> e.key in keys;
      }
    }
  }

  lemma ZeroIsLowest(s: State, book: Book, lowest: nat, keys: set<Key>)
    requires LowestTime(s, book, lowest, keys)
    ensures ZeroSlot(s, book) ==> lowest == 0
  {
  }

  /** Between two states only the trades in closed have left; collateral account and residue stay. */
  ghost predicate Closing(start: State, s: State, closed: set<Key>) {
    Sound(s) && SameSlack(start, s) && SameResidue(start, s) && s.trades == start.trades - closed
  }

  lemma ClosingStart(s: State)
    requires Sound(s)
    ensures Closing(s, s, {})
  {
  }

  /** One trade id of an expired time: without an open trade it is refused, and an open trade that is over is closed. */
  lemma CloseOne(start: State, s: State, closed: set<Key>, env: Env, key: Key)
    requires Closing(start, s, closed)
    ensures var r := RepayTrade(s, env, key);
      && (r.Panicked? ==> !LiquidationRatesSet(start.trades, env))
      && (r.Step? && r.outcome == Refused ==> r.state == s && (key in s.trades ==> s.trades[key].liqTime > env.now))
      && (r.Step? && r.outcome != Refused ==> key in s.trades && Closing(start, r.state, closed + {key}))
  {
    RepayEffect(s, env, key);
    RepayKeepsSlack(s, env, key);
    var r := RepayTrade(s, env, key);
    assert r.Panicked? ==> !LiquidationRatesSet(start.trades, env);
    hide RepayTrade, Covered, OutsideParties, Backed, Strays;
    if r.Step? && r.outcome != Refused {
      SlackTransitive(start, s, r.state);
      assert s.trades - {key} == start.trades - (closed + {key});
    }
  }

  /** What closing one trade of the time phase means for an account. */
  ghost function FlowOf(trades: map<Key, Trade>, env: Env, liquidated: set<Key>, k: Key, a: Account): int {
    if k !in trades then 0
    else if k in liquidated then Flow(trades[k], 0, Share(env, trades[k]), a)
    else Flow(trades[k], Payment(env, trades[k]), 0, a)
  }

  ghost function FlowSum(trades: map<Key, Trade>, env: Env, closed: set<Key>, liquidated: set<Key>, a: Account): int {
    Sum(closed, (k: Key) => FlowOf(trades, env, liquidated, k, a))
  }

  /** Every account moved by what the closed trades, of which some were liquidated, pay it; no supply moved. */
  ghost predicate Distributes(start: State, s: State, env: Env, closed: set<Key>, liquidated: set<Key>) {
    && liquidated <= closed
    && (forall a: Account ::
        BalanceOf(s.balances, a) == BalanceOf(start.balances, a) + FlowSum(start.trades, env, closed, liquidated, a))
    && forall token: Token :: Supply(s.balances, token) == Supply(start.balances, token)
  }

  lemma DistributesNothing(s: State, env: Env)
    ensures Distributes(s, s, env, {}, {})
  {
  }

  lemma DistributesOne(start: State, s: State, env: Env, closed: set<Key>, liquidated: set<Key>, key: Key)
    requires Closing(start, s, closed) && Distributes(start, s, env, closed, liquidated)
    requires key in s.trades && RepayTrade(s, env, key).Step? && RepayTrade(s, env, key).outcome != Refused
    ensures var r := RepayTrade(s, env, key);
      Distributes(start, r.state, env, closed + {key}, if r.outcome == Liquidated then liquidated + {key}
          else liquidated)
  {
    var r := RepayTrade(s, env, key);
    RepayPays(s, env, key);
    var more := if r.outcome == Liquidated then liquidated + {key} else liquidated;
    assert r.outcome == Liquidated || r.outcome == Repaid;
    assert key !in closed && start.trades[key] == s.trades[key];
    hide Sound, SameSlack, SameResidue, RepayTrade, Supply, Flow, Share, Payment;
    forall a: Account
      ensures BalanceOf(r.state.balances, a) == BalanceOf(start.balances, a)
        + FlowSum(start.trades, env, closed + {key}, more, a)
    {
      SumInsert(closed, (k: Key) => FlowOf(start.trades, env, more, k, a), key);
      SumCongruence(closed, (k: Key) => FlowOf(start.trades, env, more, k, a),
                    (k: Key) => FlowOf(start.trades, env, liquidated, k, a));
    }
    forall token: Token ensures Supply(r.state.balances, token) == Supply(start.balances, token) {
      assert Supply(r.state.balances, token) == Supply(s.balances, token);
    }
  }

  lemma DistributesBoth(a: State, b: State, c: State, env: Env, x: set<Key>, y: set<Key>, lx: set<Key>, ly: set<Key>)
    requires Closing(a, b, x) && y <= b.trades.Keys
    requires Distributes(a, b, env, x, lx) && Distributes(b, c, env, y, ly)
    ensures Distributes(a, c, env, x + y, lx + ly)
  {
    hide Sound, SameSlack, SameResidue, Supply, FlowOf;
    assert x !! y;
    forall w: Account
      ensures BalanceOf(c.balances, w) == BalanceOf(a.balances, w) + FlowSum(a.trades, env, x + y, lx + ly, w)
    {
      SumUnion(x, y, (k: Key) => FlowOf(a.trades, env, lx + ly, k, w));
      SameFlows(a.trades, a.trades, env, x, lx, lx + ly, w);
      SameFlows(a.trades, b.trades, env, y, ly, lx + ly, w);
    }
    forall token: Token ensures Supply(c.balances, token) == Supply(a.balances, token) {
      assert Supply(c.balances, token) == Supply(b.balances, token);
    }
  }

  lemma SameFlows(
      trades: map<Key, Trade>, other: map<Key, Trade>, env: Env, keys: set<Key>, l: set<Key>, more: set<Key>,
      a: Account)
    requires forall k | k in keys ::
      (k in l <==> k in more) && (k in trades <==> k in other) && (k in other ==> trades[k] == other[k])
    ensures FlowSum(other, env, keys, l, a) == FlowSum(trades, env, keys, more, a)
  {
    SumCongruence(keys, (k: Key) => FlowOf(other, env, l, k, a), (k: Key) => FlowOf(trades, env, more, k, a));
  }

  /**
   A stray entry on an id that names another open trade: the time phase repays that trade before its term if the
   borrower can pay, the trade's own entry goes with it, and the stray one stays and names no open trade any more.
   */
  lemma StrayRepaysEarly(s: State, env: Env, e: TimeEntry)
    requires Sound(s) && e in Strays(s) && e.key in s.trades && e.time < env.now < s.trades[e.key].liqTime
    ensures var t, r := s.trades[e.key], RepayTrade(s, env, e.key);
      && r.Step?
      && (r.outcome == Repaid <==> BalanceOf(s.balances, Account(t.lendingToken, t.borrower)) >= Payment(env, t))
      && (r.outcome == Repaid ==>
          e.key !in r.state.trades && TimeEntry(t.liqTime, e.key) !in r.state.times && e in Strays(r.state))
      && (r.outcome != Repaid ==> r == Step(s, Refused))
  {
    RepayPays(s, env, e.key);
    RepayEffect(s, env, e.key);
    var t, r := s.trades[e.key], RepayTrade(s, env, e.key);
    assert r.Step?;
    hide RepayTrade, Payment, Share, PaysOut;
    if r.outcome == Repaid {
      EntryKinds(r.state, TimeEntry(t.liqTime, e.key));
    }
  }

  lemma ClosedTrades(start: State, s: State, closed: set<Key>, key: Key)
    requires Closing(start, s, closed)
    ensures key in s.trades ==> key in start.trades && key !in closed && s.trades[key] == start.trades[key]
    ensures key in start.trades && key !in closed ==> key in s.trades
  {
  }

  lemma ClosedKeys(start: State, s: State, closed: set<Key>, more: set<Key>)
    requires Closing(start, s, closed) && more <= s.trades.Keys
    ensures more <= start.trades.Keys
  {
  }

  lemma RatesAfterClosing(start: State, s: State, closed: set<Key>, env: Env)
    requires Closing(start, s, closed)
    ensures LiquidationRatesSet(start.trades, env) ==> LiquidationRatesSet(s.trades, env)
  {
  }

  lemma ClosingTransitive(a: State, b: State, c: State, x: set<Key>, y: set<Key>)
    requires Closing(a, b, x) && Closing(b, c, y)
    ensures Closing(a, c, x + y)
  {
    SlackTransitive(a, b, c);
    assert a.trades - x - y == a.trades - (x + y);
  }

  lemma ClosingShrinks(s: State, r: State, closed: set<Key>)
    requires Closing(s, r, closed) && closed <= s.trades.Keys && closed != {}
    ensures |r.trades| < |s.trades|
  {
    var k :| k in closed;
    assert k !in r.trades;
    SubsetSmaller(r.trades.Keys, s.trades.Keys);
    assert |r.trades| == |r.trades.Keys| && |s.trades| == |s.trades.Keys|;
  }

  /** The time index holds the current entries of the open trades and the strays. */
  lemma EntryKinds(s: State, e: TimeEntry)
    requires Covered(s)
    ensures e in s.times <==> e in Strays(s) || Current(s.trades, e)
  {
  }

  lemma ResidueStays(start: State, s: State, book: Book, now: nat)
    requires SameResidue(start, s)
    ensures HasStray(start, book, now) <==> HasStray(s, book, now)
    ensures HasSurplus(start, book, now) <==> HasSurplus(s, book, now)
  {
  }

  /** Without a stray every trade listed at the lowest time is open and over then. */
  lemma AtLowestTime(start: State, s: State, closed: set<Key>, book: Book, lowest: nat, keys: set<Key>, now: nat)
    requires Closing(start, s, closed) && LowestTime(s, book, lowest, keys) && 0 < lowest < now
    ensures forall k | k in keys :: k.book == book
    ensures keys == {} ==> HasSurplus(start, book, now)
    ensures !HasStray(start, book, now) ==> keys <= Expired(start.trades, book, now)
    ensures !HasStray(start, book, now) ==> forall k | k in keys :: k in s.trades && s.trades[k].liqTime == lowest
  {
    ResidueStays(start, s, book, now);
    if keys == {} {
      assert Slot(book, lowest) in s.surplus;
    }
    if !HasStray(start, book, now) {
      forall k | k in keys ensures k in s.trades && s.trades[k].liqTime == lowest {
        EntryKinds(s, TimeEntry(lowest, k));
      }
    }
  }

  /** Once the lowest time is not before now, nothing is left before now, neither a trade nor a residue. */
  lemma NothingBefore(start: State, s: State, closed: set<Key>, book: Book, now: nat, lowest: nat, keys: set<Key>)
    requires Closing(start, s, closed) && LowestTime(s, book, lowest, keys) && (lowest == 0 || lowest >= now)
    requires !ZeroSlot(s, book)
    ensures Expired(s.trades, book, now) == {} && !HasStray(start, book, now) && !HasSurplus(start, book, now)
  {
    ResidueStays(start, s, book, now);
    forall k | k in s.trades ensures k !in Expired(s.trades, book, now) {
      EntryKinds(s, TimeEntry(s.trades[k].liqTime, k));
    }
    hide Sound;
    assert forall e | e in Strays(s) :: e in s.times;
  }

  lemma ExactlyExpired(start: State, s: State, closed: set<Key>, book: Book, now: nat)
    requires Closing(start, s, closed) && closed <= Expired(start.trades, book, now)
      && Expired(s.trades, book, now) == {}
    ensures closed == Expired(start.trades, book, now)
  {
    forall k | k in Expired(start.trades, book, now) ensures k in closed {
      assert k !in Expired(s.trades, book, now);
    }
  }

  /** Time zero comes into use only by opening a trade. */
  lemma ZeroSlotStays(start: State, s: State, closed: set<Key>, book: Book)
    requires Sound(start) && Closing(start, s, closed)
    ensures ZeroSlot(s, book) ==> ZeroSlot(start, book)
    ensures (forall k | k in closed :: k.book != book) ==> (ZeroSlot(s, book) <==> ZeroSlot(start, book))
  {
    forall e | e in s.times && e.key.book == book && e.time == 0 ensures e in start.times {
      EntryKinds(s, e);
      EntryKinds(start, e);
    }
    if forall k | k in closed :: k.book != book {
      forall e | e in start.times && e.key.book == book && e.time == 0 ensures e in s.times {
        EntryKinds(s, e);
        EntryKinds(start, e);
      }
    }
  }

  lemma OtherBookClears(start: State, s: State, closed: set<Key>, book: Book, now: nat)
    requires Sound(start) && Closing(start, s, closed) && forall k | k in closed :: k.book != book
    ensures BookClears(s, book, now) <==> BookClears(start, book, now)
  {
    ZeroSlotStays(start, s, closed, book);
    ResidueStays(start, s, book, now);
  }

  /** How one book of the time phase ends says the same of the state the phase began in. */
  lemma BookSettled(start: State, s: State, r: State, closed: set<Key>, c: set<Key>, env: Env, book: Book, done: Pass)
    requires Sound(start) && Closing(start, s, closed) && Closing(s, r, c) && forall k | k in closed :: k.book != book
    requires done == Finished ==>
      BookClears(s, book, env.now) && (!ZeroSlot(s, book) ==> c == Expired(s.trades, book, env.now))
    requires done == Failed ==> HasStray(s, book, env.now)
    requires done == Stuck ==> HasSurplus(s, book, env.now)
    requires done == Halted ==> !LiquidationRatesSet(s.trades, env)
    ensures Closing(start, r, closed + c)
    ensures done == Finished ==>
      BookClears(start, book, env.now) && (!ZeroSlot(start, book) ==> Expired(r.trades, book, env.now) == {})
    ensures done == Failed ==> HasStray(start, book, env.now)
    ensures done == Stuck ==> HasSurplus(start, book, env.now)
    ensures done == Halted ==> !LiquidationRatesSet(start.trades, env)
  {
    ClosingTransitive(start, s, r, closed, c);
    OtherBookClears(start, s, closed, book, env.now);
    ZeroSlotStays(start, s, closed, book);
    ResidueStays(start, s, book, env.now);
    RatesAfterClosing(start, s, closed, env);
    hide Sound, ZeroSlot, HasStray, HasSurplus, BookClears, LiquidationRatesSet;
    if done == Finished && !ZeroSlot(start, book) {
      forall k | k in r.trades ensures k !in Expired(r.trades, book, env.now) {
        assert k !in c;
      }
    }
  }

  /**
   The loop goes round forever: its lowest time lists no trade, so a round changes nothing and finds the same time.
   */
  ghost predicate StuckTime(s: State, book: Book, now: nat) {
    exists t: nat :: 0 < t < now && LowestTime(s, book, t, {})
  }

  // ----- the price phase

  /** The trades of a pair whose liquidation price is above the collateral price. */
  ghost function Above(trades: map<Key, Trade>, m: Pair, price: nat): set<Key> {
    set k | k in trades && trades[k].Market() == m && trades[k].liqPrice > price
  }

  /** An automatic top-up divides by the target and by the new locked amount. */
  ghost predicate TopUpsDivide(trades: map<Key, Trade>, m: Pair, price: nat) {
    forall k | k in Above(trades, m, price) && trades[k].autoTopUp :: trades[k].locked >= 1 && price >= 2
  }

  predicate InvestsIn(trades: map<Key, Trade>, keys: set<Key>, a: Address) {
    exists k :: k in keys && k in trades && trades[k].investor == a
  }

  predicate CanTopUp(s: State, t: Trade, price: nat)
    requires TopUpTarget(price) > 0
  {
    BalanceOf(s.balances, Account(t.collateralToken, t.borrower)) >= ToppedUp(t.locked, t.liqPrice, price) - t.locked
  }

  /**
   Every automatic top-up this price asks for lands, or its borrower cannot pay for it and gains nothing from the
   liquidations of this price; see TopUpArithmetic.NineIsExact for the amounts that always land.
   */
  ghost predicate TopUpsSettle(s: State, m: Pair, price: nat) {
    forall k | k in Above(s.trades, m, price) && s.trades[k].autoTopUp :: SettlesAt(s, m, price, k)
  }

  ghost predicate SettlesAt(s: State, m: Pair, price: nat, k: Key)
    requires k in s.trades
  {
    && TopUpTarget(price) > 0
    && (Lands(s.trades[k].locked, s.trades[k].liqPrice, price) ||
        (!CanTopUp(s, s.trades[k], price) && !InvestsIn(s.trades, Above(s.trades, m, price), s.trades[k].borrower)))
  }

  /** Only those who invested in a trade above the price gain collateral while it is settled. */
  ghost predicate NoGain(start: State, s: State, m: Pair, price: nat) {
    forall a: Address | a != LENDING_LOCK && !InvestsIn(start.trades, Above(start.trades, m, price), a) ::
      BalanceOf(s.balances, Account(m.collateral, a)) <= BalanceOf(start.balances, Account(m.collateral, a))
  }

  /** The highest price in a pair's index together with its keys; zero and no key for an empty index. */
  ghost predicate HighestPrice(prices: set<PriceEntry>, m: Pair, highest: nat, keys: set<Key>) {
    && (forall e | e in prices && e.market == m :: e.price <= highest)
    && keys == (set e | e in prices && e.market == m && e.price == highest :: e.key)
    && (highest > 0 ==> keys != {})
  }

  /** What the price phase may do to a trade that was above the price and is still there. */
  predicate Lowered(before: Trade, t: Trade, price: nat) {
    && t.liqPrice <= before.liqPrice && t.locked >= before.locked
    && (t == before || (t.autoTopUp && TopUpTarget(price) <= t.liqPrice))
  }

  /**
   Between two states of the price phase the trades in liquidated have left, the trades that were not above the
   price are untouched, and the others were left alone or topped up, never below the target.
   */
  ghost predicate Settling(start: State, s: State, m: Pair, price: nat, liquidated: set<Key>) {
    && Sound(s) && SameSlack(start, s) && SameResidue(start, s) && Evolves(start, s)
    && liquidated <= Above(start.trades, m, price)
    && s.trades.Keys == start.trades.Keys - liquidated
    && (forall k | k in s.trades && k !in Above(start.trades, m, price) :: s.trades[k] == start.trades[k])
    && (forall k | k in s.trades && k in Above(start.trades, m, price) :: Lowered(start.trades[k], s.trades[k], price))
    && NoGain(start, s, m, price)
  }

  /** The trades still above the price have not been touched. */
  ghost predicate Untouched(start: State, s: State, m: Pair, price: nat) {
    forall k | k in Above(s.trades, m, price) :: k in start.trades && s.trades[k] == start.trades[k]
  }

  lemma SettlingStart(s: State, m: Pair, price: nat)
    requires Sound(s)
    ensures Settling(s, s, m, price, {}) && Untouched(s, s, m, price)
  {
  }

  lemma AboveShrinks(start: State, s: State, m: Pair, price: nat, liquidated: set<Key>)
    requires Settling(start, s, m, price, liquidated)
    ensures Above(s.trades, m, price) <= Above(start.trades, m, price)
    ensures TopUpsDivide(start.trades, m, price) ==> TopUpsDivide(s.trades, m, price)
  {
    hide Sound;
  }

  lemma NoGainTransitive(a: State, b: State, c: State, m: Pair, price: nat, x: set<Key>)
    requires Settling(a, b, m, price, x) && NoGain(b, c, m, price)
    ensures NoGain(a, c, m, price)
  {
    hide Sound;
    AboveShrinks(a, b, m, price, x);
    forall w: Address | w != LENDING_LOCK && !InvestsIn(a.trades, Above(a.trades, m, price), w)
      ensures BalanceOf(c.balances, Account(m.collateral, w)) <= BalanceOf(a.balances, Account(m.collateral, w))
    {
      assert !InvestsIn(b.trades, Above(b.trades, m, price), w) by {
        assert forall k | k in Above(b.trades, m, price) ::
          k in Above(a.trades, m, price) && b.trades[k].investor == a.trades[k].investor;
      }
    }
  }

  lemma SettlingTransitive(a: State, b: State, c: State, m: Pair, price: nat, x: set<Key>, y: set<Key>)
    requires Settling(a, b, m, price, x) && Settling(b, c, m, price, y)
    ensures Settling(a, c, m, price, x + y)
  {
    SlackTransitive(a, b, c);
    NoGainTransitive(a, b, c, m, price, x);
    AboveShrinks(a, b, m, price, x);
    hide Sound, NoGain;
    forall k | k in c.trades && k in Above(a.trades, m, price) ensures Lowered(a.trades[k], c.trades[k], price) {
      assert Lowered(a.trades[k], b.trades[k], price);
      if k !in Above(b.trades, m, price) {
        assert c.trades[k] == b.trades[k];
      }
    }
  }

  /** What is decided about a trade above the price stays decided until its turn. */
  lemma SettlesLater(start: State, s: State, m: Pair, price: nat, liquidated: set<Key>, key: Key)
    requires Settling(start, s, m, price, liquidated) && OutsideParties(start) && TopUpsSettle(start, m, price)
      && Untouched(start, s, m, price)
    requires key in Above(s.trades, m, price) && s.trades[key].autoTopUp
    ensures SettlesAt(s, m, price, key)
  {
    hide Sound;
    AboveShrinks(start, s, m, price, liquidated);
    assert s.trades[key] == start.trades[key];
    assert SettlesAt(start, m, price, key);
    var b := s.trades[key].borrower;
    if !InvestsIn(start.trades, Above(start.trades, m, price), b) {
      assert forall k | k in Above(s.trades, m, price) ::
        k in Above(start.trades, m, price) && s.trades[k].investor == start.trades[k].investor;
      assert !InvestsIn(s.trades, Above(s.trades, m, price), b);
    }
  }

  /** A top-up that asks for nothing. */
  predicate Idle(t: Trade, price: nat) {
    TopUpTarget(price) > 0 && t.autoTopUp && ToppedUp(t.locked, t.liqPrice, price) == t.locked
  }

  /** A top-up divides by zero exactly for a price below two or a trade without collateral. */
  lemma TopUpPanics(s: State, m: Pair, price: nat, key: Key)
    requires Sound(s) && key in Above(s.trades, m, price)
    ensures AutoTopUp(s, key, price).Panicked? <==> price < 2 || s.trades[key].locked == 0
  {
    var t := s.trades[key];
    if price >= 2 {
      if t.locked >= 1 {
        AutoTopUpResult(s, key, price);
      } else {
        PriceOfOpenTrade(s, key);
      }
    }
  }

  /** A top-up of a trade above the price lowers its price, or changes nothing at all. */
  lemma TopUpOne(s: State, m: Pair, price: nat, key: Key)
    requires Sound(s) && key in Above(s.trades, m, price) && price >= 2 && s.trades[key].locked >= 1
      && s.trades[key].autoTopUp
    ensures var r := AutoTopUp(s, key, price);
      && r.Step? && (r.outcome == Updated || r == Step(s, Refused))
      && TopUpTarget(price) > 0 && (r.outcome == Updated <==> CanTopUp(s, s.trades[key], price))
      && (r.outcome == Updated ==>
            && key in r.state.trades && r.state.trades == s.trades[key := r.state.trades[key]]
            && Settling(s, r.state, m, price, {})
            && (Lands(s.trades[key].locked, s.trades[key].liqPrice, price) ==> r.state.trades[key].liqPrice <= price)
            && (r.state.trades[key].liqPrice == s.trades[key].liqPrice ==> Idle(r.state.trades[key], price)))
  {
    var t := s.trades[key];
    AutoTopUpResult(s, key, price);
    AutoTopUpEffect(s, key, price);
    AutoTopUpKeepsSlack(s, key, price);
    LandsAboveTarget(t.locked, t.liqPrice, price);
    PriceMoves(t.locked, t.liqPrice, price);
    AutoTopUpBalances(s, key, price);
    hide AutoTopUp, Covered, OutsideParties, Backed, Landed, ToppedUp, TopUpTarget, MulDiv, Strays;
    var r := AutoTopUp(s, key, price);
    if r.outcome == Updated {
      SlackTransitive(s, s, r.state);
    }
  }

  /** The price never rises, and stays only when nothing is asked for. */
  lemma PriceMoves(locked: nat, liqPrice: nat, price: nat)
    requires locked >= 1 && liqPrice > price >= 2
    ensures TopUpTarget(price) > 0 && ToppedUp(locked, liqPrice, price) >= locked
    ensures Landed(locked, liqPrice, price) <= liqPrice
    ensures Landed(locked, liqPrice, price) == liqPrice ==> ToppedUp(locked, liqPrice, price) == locked
  {
    ToppedUpPositive(locked, liqPrice, price);
    var n := ToppedUp(locked, liqPrice, price);
    MulOrder(locked, n, liqPrice);
    Below(liqPrice * locked, n, liqPrice + 1);
    AtLeast(liqPrice * locked, n, liqPrice);
    assert (liqPrice + 1) * n == liqPrice * n + n;
  }

  /** An automatic top-up takes from the borrower and gives to the lock account only. */
  lemma AutoTopUpBalances(s: State, key: Key, price: nat)
    requires key in s.trades
    ensures var t, r := s.trades[key], AutoTopUp(s, key, price); r.Step? ==>
      forall a: Account | a != Account(t.collateralToken, LENDING_LOCK) ::
        BalanceOf(r.state.balances, a) <= BalanceOf(s.balances, a)
  {
    var t := s.trades[key];
    if price < t.liqPrice && TopUpTarget(price) > 0 {
      TopUpGrows(t.locked, t.liqPrice, TopUpTarget(price));
      TopUpBalances(s, key, MulDiv(t.locked, t.liqPrice, TopUpTarget(price)) - t.locked);
    }
    hide TopUpTrade;
  }

  lemma TopUpBalances(s: State, key: Key, quantity: nat)
    requires key in s.trades
    ensures var t, r := s.trades[key], TopUpTrade(s, key, quantity); r.Step? ==>
      forall a: Account | a != Account(t.collateralToken, LENDING_LOCK) ::
        BalanceOf(r.state.balances, a) <= BalanceOf(s.balances, a)
  {
    hide MulDiv;
  }

  lemma LiquidateOne(s: State, m: Pair, price: nat, key: Key)
    requires Sound(s) && key in Above(s.trades, m, price)
    ensures var r := LiquidateTrade(s, key);
      && r.Step? && r.outcome == Liquidated
      && Settling(s, r.state, m, price, {key})
      && r.state.trades == s.trades - {key}
  {
    LiquidateEffect(s, key);
    LiquidateKeepsSlack(s, key);
    LiquidatedGain(s, m, price, key);
    hide LiquidateTrade, Covered, OutsideParties, Backed, Strays;
    SlackTransitive(s, s, LiquidateTrade(s, key).state);
  }

  lemma LiquidatedGain(s: State, m: Pair, price: nat, key: Key)
    requires Covered(s) && key in Above(s.trades, m, price)
    ensures NoGain(s, LiquidateTrade(s, key).state, m, price)
  {
    assert InvestsIn(s.trades, Above(s.trades, m, price), s.trades[key].investor);
  }

  /** The trades at one price are worked off one by one; done holds those already visited. */
  ghost predicate PriceProgress(start: State, s: State, m: Pair, price: nat, done: set<Key>, liquidated: set<Key>) {
    && Settling(start, s, m, price, liquidated) && liquidated <= done
    && (forall k | k in s.trades && k !in done :: s.trades[k] == start.trades[k])
    && (forall k | k in s.trades && k in done :: Visited(start.trades[k], s.trades[k], price))
    && (TopUpsSettle(start, m, price) ==> forall k | k in s.trades && k in done :: s.trades[k].liqPrice <= price)
  }

  predicate Visited(before: Trade, t: Trade, price: nat) {
    t.liqPrice <= before.liqPrice && (t.liqPrice == before.liqPrice ==> t.locked >= 1 && Idle(t, price))
  }

  lemma ProgressStart(s: State, m: Pair, price: nat)
    requires Sound(s)
    ensures PriceProgress(s, s, m, price, {}, {})
  {
    SettlingStart(s, m, price);
  }

  lemma NotYetVisited(start: State, s: State, m: Pair, price: nat, done: set<Key>, liquidated: set<Key>, key: Key)
    requires PriceProgress(start, s, m, price, done, liquidated) && key in Above(start.trades, m, price) && key !in done
    ensures Sound(s) && key in s.trades && s.trades[key] == start.trades[key] && key in Above(s.trades, m, price)
    ensures TopUpsSettle(start, m, price) ==> Untouched(start, s, m, price)
  {
  }

  /** A trade liquidated by price. */
  lemma LiquidateNext(start: State, s: State, m: Pair, price: nat, done: set<Key>, liquidated: set<Key>, key: Key)
    requires PriceProgress(start, s, m, price, done, liquidated) && key in Above(start.trades, m, price) && key !in done
    ensures var r := LiquidateTrade(s, key);
      && r.Step? && r.outcome == Liquidated
      && PriceProgress(start, r.state, m, price, done + {key}, liquidated + {key})
  {
    NotYetVisited(start, s, m, price, done, liquidated, key);
    assert Sound(s);
    LiquidateOne(s, m, price, key);
    hide LiquidateTrade, Sound, NoGain, TopUpsSettle, Visited;
    SettlingTransitive(start, s, LiquidateTrade(s, key).state, m, price, liquidated, {key});
  }

  /** An automatic top-up by price: it panics, is refused, or leaves the trade lower or idle. */
  lemma TopUpNext(start: State, s: State, m: Pair, price: nat, done: set<Key>, liquidated: set<Key>, key: Key)
    requires PriceProgress(start, s, m, price, done, liquidated) && key in Above(start.trades, m, price) && key !in done
    requires Sound(start) && start.trades[key].autoTopUp
    ensures var r := AutoTopUp(s, key, price);
      && (r.Panicked? ==> !TopUpsDivide(start.trades, m, price))
      && (r.Step? ==>
          r == Step(s, Refused) || (r.outcome == Updated
                                    && PriceProgress(start, r.state, m, price, done + {key}, liquidated)))
  {
    NotYetVisited(start, s, m, price, done, liquidated, key);
    assert Sound(s);
    TopUpPanics(s, m, price, key);
    if price >= 2 && s.trades[key].locked >= 1 {
      TopUpOne(s, m, price, key);
      if TopUpsSettle(start, m, price) {
        SettlesLater(start, s, m, price, liquidated, key);
      }
      TopUpProgress(start, s, m, price, done, liquidated, key, AutoTopUp(s, key, price));
    }
  }

  lemma TopUpProgress(
      start: State, s: State, m: Pair, price: nat, done: set<Key>, liquidated: set<Key>, key: Key, r: Step)
    requires PriceProgress(start, s, m, price, done, liquidated) && key in Above(s.trades, m, price) && key !in done
    requires price >= 2 && s.trades[key].locked >= 1 && TopUpTarget(price) > 0
    requires s.trades[key] == start.trades[key]
    requires r.Step? && (r.outcome == Updated || r == Step(s, Refused))
    requires r.outcome == Updated <==> CanTopUp(s, s.trades[key], price)
    requires r.outcome == Updated ==>
      && key in r.state.trades && r.state.trades == s.trades[key := r.state.trades[key]]
      && Settling(s, r.state, m, price, {})
      && (Lands(s.trades[key].locked, s.trades[key].liqPrice, price) ==> r.state.trades[key].liqPrice <= price)
      && (r.state.trades[key].liqPrice == s.trades[key].liqPrice ==> Idle(r.state.trades[key], price))
    requires TopUpsSettle(start, m, price) ==> SettlesAt(s, m, price, key)
    ensures r.outcome == Updated ==> PriceProgress(start, r.state, m, price, done + {key}, liquidated)
  {
    hide Sound, NoGain, TopUpsSettle, Idle, Lands, CanTopUp, InvestsIn;
    if r.outcome == Updated {
      SettlingTransitive(start, s, r.state, m, price, liquidated, {});
      assert liquidated + {} == liquidated;
      assert Lowered(s.trades[key], r.state.trades[key], price);
      assert Visited(start.trades[key], r.state.trades[key], price);
    }
  }

  /**
   After all trades at the highest price were visited: those still there are idle, and none is if all top-ups settle.
   */
  lemma AllVisited(
      s: State, r: State, m: Pair, price: nat, highest: nat, keys: set<Key>, liquidated: set<Key>, next: nat,
      left: set<Key>)
    requires Sound(s) && HighestPrice(s.prices, m, highest, keys) && highest > price
    requires PriceProgress(s, r, m, price, keys, liquidated) && HighestPrice(r.prices, m, next, left)
    ensures next <= highest
    ensures next == highest ==> AllIdle(r.trades, left, price)
    ensures TopUpsSettle(s, m, price) ==> next < highest && Untouched(s, r, m, price)
    ensures Above(r.trades, m, price) <= Above(s.trades, m, price)
  {
    AtHighestPrice(s, m, price, highest, keys);
    AboveShrinks(s, r, m, price, liquidated);
    assert Sound(r);
    if next > price {
      AtHighestPrice(r, m, price, next, left);
      hide Sound, NoGain, TopUpsSettle, Idle, HighestPrice;
      forall k | k in left ensures s.trades[k].liqPrice <= highest && r.trades[k].liqPrice == next {
        assert k in Above(r.trades, m, price);
      }
      forall k | k in left && next >= highest
        ensures next == highest && k in keys && Visited(s.trades[k], r.trades[k], price)
      {
        assert k in Above(s.trades, m, price);
      }
      var k :| k in left;
      assert k in Above(r.trades, m, price) && k in Above(s.trades, m, price);
    }
  }

  lemma ProgressSettles(start: State, s: State, m: Pair, price: nat, done: set<Key>, liquidated: set<Key>)
    requires PriceProgress(start, s, m, price, done, liquidated)
    ensures Settling(start, s, m, price, liquidated)
  {
  }

  lemma SettlingSound(start: State, s: State, m: Pair, price: nat, liquidated: set<Key>)
    requires Settling(start, s, m, price, liquidated)
    ensures Sound(s) && (TopUpsDivide(start.trades, m, price) ==> TopUpsDivide(s.trades, m, price))
  {
    AboveShrinks(start, s, m, price, liquidated);
  }

  /**
   If every top-up settles, the trades still above the price after one more round are those untouched from the start.
   */
  lemma AllSettleLater(start: State, s: State, r: State, m: Pair, price: nat, liquidated: set<Key>)
    requires Sound(start) && Settling(start, s, m, price, liquidated)
    requires TopUpsSettle(start, m, price) ==> Untouched(start, s, m, price)
    ensures TopUpsSettle(start, m, price) ==> TopUpsSettle(s, m, price)
    ensures TopUpsSettle(start, m, price) && Untouched(s, r, m, price)
      && Above(r.trades, m, price) <= Above(s.trades, m, price)
      ==> Untouched(start, r, m, price)
  {
    assert OutsideParties(start);
    hide Sound, OutsideParties, SettlesAt, Settling;
    if TopUpsSettle(start, m, price) {
      forall k | k in Above(s.trades, m, price) && s.trades[k].autoTopUp ensures SettlesAt(s, m, price, k) {
        SettlesLater(start, s, m, price, liquidated, k);
      }
    }
  }

  lemma AtHighestPrice(s: State, m: Pair, price: nat, highest: nat, keys: set<Key>)
    requires Sound(s) && HighestPrice(s.prices, m, highest, keys) && highest > price
    ensures keys != {} && keys <= Above(s.trades, m, price)
    ensures forall k | k in Above(s.trades, m, price) ::
      s.trades[k].liqPrice <= highest && (s.trades[k].liqPrice == highest <==> k in keys)
  {
    forall k | k in Above(s.trades, m, price)
      ensures s.trades[k].liqPrice <= highest && (s.trades[k].liqPrice == highest <==> k in keys)
    {
      PriceOfOpenTrade(s, k);
    }
    var k :| k in keys;
    assert k in Above(s.trades, m, price);
  }

  lemma PriceOfOpenTrade(s: State, k: Key)
    requires Covered(s)
    ensures k in s.trades ==> PriceEntry(s.trades[k].Market(), s.trades[k].liqPrice, k) in s.prices
  {
  }

  lemma NoneAboveLeft(start: State, s: State, m: Pair, price: nat, liquidated: set<Key>, highest: nat, keys: set<Key>)
    requires Settling(start, s, m, price, liquidated) && HighestPrice(s.prices, m, highest, keys)
    requires highest <= price
    ensures Above(s.trades, m, price) == {}
  {
    forall k | k in s.trades ensures k !in Above(s.trades, m, price) {
      PriceOfOpenTrade(s, k);
    }
  }

  /** The loop goes round forever: every trade at the highest price is topped up by nothing. */
  ghost predicate StuckPrice(s: State, m: Pair, price: nat) {
    exists highest: nat, keys: set<Key> ::
      highest > price && HighestPrice(s.prices, m, highest, keys) && AllIdle(s.trades, keys, price)
  }

  ghost predicate AllIdle(trades: map<Key, Trade>, keys: set<Key>, price: nat) {
    forall k | k in keys :: k in trades && trades[k].locked >= 1 && Idle(trades[k], price)
  }

  /** Two states that differ at most in how zero balances are written. */
  ghost predicate Unmoved(s: State, r: State) {
    r == s.(balances := r.balances) && forall a: Account :: BalanceOf(r.balances, a) == BalanceOf(s.balances, a)
  }

  lemma UnmovedStart(s: State)
    ensures Unmoved(s, s)
  {
  }

  /** Topping up an idle trade succeeds and changes nothing. */
  lemma IdleChangesNothing(s: State, key: Key, price: nat)
    requires Covered(s) && key in s.trades && s.trades[key].liqPrice > price
    requires s.trades[key].locked >= 1 && Idle(s.trades[key], price)
    ensures var r := AutoTopUp(s, key, price); r.Step? && r.outcome == Updated && Unmoved(s, r.state)
  {
    var t := s.trades[key];
    PriceOfOpenTrade(s, key);
    Exact(t.liqPrice, t.locked);
    var r := AutoTopUp(s, key, price);
    assert r.state.trades == s.trades && r.state.prices == s.prices;
  }

  lemma IdleNext(start: State, s: State, m: Pair, price: nat, keys: set<Key>, key: Key)
    requires AllIdle(start.trades, keys, price) && Unmoved(start, s) && key in keys && Sound(s)
      && key in Above(s.trades, m, price)
    ensures s.trades[key].autoTopUp
    ensures var r := AutoTopUp(s, key, price); r.Step? && r.outcome == Updated && Unmoved(start, r.state)
  {
    IdleChangesNothing(s, key, price);
    hide AutoTopUp, Sound, Above;
  }

  /** The highest price and its trades are determined by the index. */
  lemma HighestUnique(prices: set<PriceEntry>, m: Pair, h: nat, ks: set<Key>, highest: nat, keys: set<Key>)
    requires HighestPrice(prices, m, h, ks) && HighestPrice(prices, m, highest, keys) && h > 0
    ensures highest == h && keys == ks
  {
    var k :| k in ks;
    assert PriceEntry(m, h, k) in prices;
    var j :| j in keys;
    assert PriceEntry(m, highest, j) in prices;
  }

  lemma StuckAgain(s: State, r: State, m: Pair, price: nat, highest: nat, keys: set<Key>)
    requires StuckPrice(s, m, price) && HighestPrice(s.prices, m, highest, keys)
    ensures highest > price && AllIdle(s.trades, keys, price)
    ensures Unmoved(s, r) ==> StuckPrice(r, m, price) && HighestPrice(r.prices, m, highest, keys)
  {
    var h: nat, ks: set<Key> :| h > price && HighestPrice(s.prices, m, h, ks) && AllIdle(s.trades, ks, price);
    HighestUnique(s.prices, m, h, ks, highest, keys);
  }

  /**
   A trade whose top-up does not land although its borrower can pay for it, and has no other trade to top up at
   this price.
   */
  ghost predicate Stubborn(s: State, m: Pair, price: nat, k: Key) {
    && k in Above(s.trades, m, price) && s.trades[k].autoTopUp && s.trades[k].locked >= 1 && price >= 2
    && TopUpTarget(price) > 0 && CanTopUp(s, s.trades[k], price)
    && !Lands(s.trades[k].locked, s.trades[k].liqPrice, price)
    && Alone(s.trades, m, price, k)
  }

  ghost predicate Alone(trades: map<Key, Trade>, m: Pair, price: nat, k: Key)
    requires k in trades
  {
    forall j | j in Above(trades, m, price) && trades[j].autoTopUp && j != k :: trades[j].borrower != trades[k].borrower
  }

  lemma StaysAlone(start: State, s: State, m: Pair, price: nat, liquidated: set<Key>, k: Key)
    requires Settling(start, s, m, price, liquidated) && k in start.trades && k in s.trades
      && Alone(start.trades, m, price, k)
    ensures Alone(s.trades, m, price, k)
  {
    AboveShrinks(start, s, m, price, liquidated);
    hide Sound;
    forall j | j in Above(s.trades, m, price) && s.trades[j].autoTopUp && j != k
      ensures s.trades[j].borrower != s.trades[k].borrower
    {
      assert j in Above(start.trades, m, price);
    }
  }

  /** Liquidating another trade leaves a stubborn one stubborn. */
  lemma StubbornLiquidate(s: State, m: Pair, price: nat, key: Key, k: Key)
    requires Sound(s) && key in Above(s.trades, m, price) && Stubborn(s, m, price, k) && key != k
    ensures LiquidateTrade(s, key).Step? && Stubborn(LiquidateTrade(s, key).state, m, price, k)
  {
    LiquidateOne(s, m, price, key);
    LiquidatedKeeps(s, key, Account(s.trades[k].collateralToken, s.trades[k].borrower));
    hide LiquidateTrade, Lands, ToppedUp, TopUpTarget, Alone, Sound, NoGain;
    StaysAlone(s, LiquidateTrade(s, key).state, m, price, {key}, k);
  }

  lemma LiquidatedKeeps(s: State, key: Key, a: Account)
    requires Sound(s) && key in s.trades && a.owner != LENDING_LOCK
    ensures LiquidateTrade(s, key).Step? && BalanceOf(LiquidateTrade(s, key).state.balances,
                                                      a) >= BalanceOf(s.balances, a)
  {
    LiquidateEffect(s, key);
  }

  /** Topping up another trade, or the stubborn one itself, leaves it stubborn. */
  lemma StubbornTopUp(s: State, m: Pair, price: nat, key: Key, k: Key)
    requires Sound(s) && key in Above(s.trades, m, price) && s.trades[key].autoTopUp && s.trades[key].locked >= 1
      && Stubborn(s, m, price, k)
    ensures var r := AutoTopUp(s, key, price);
      && r.Step? && (key == k ==> r.outcome == Updated) && (r.outcome == Updated ==> Stubborn(r.state, m, price, k))
  {
    var r := AutoTopUp(s, key, price);
    TopUpOne(s, m, price, key);
    if r.outcome == Updated {
      StaysAlone(s, r.state, m, price, {}, k);
      if key == k {
        StuckTopUp(s, key, price);
        StuckLands(s, key, price);
      } else {
        TopUpSpares(s, key, price, Account(s.trades[k].collateralToken, s.trades[k].borrower));
      }
    }
    hide AutoTopUp, Lands, ToppedUp, TopUpTarget, Alone, Sound, Settling;
  }

  lemma StuckLands(s: State, key: Key, price: nat)
    requires Covered(s) && key in s.trades && s.trades[key].liqPrice > price >= 2 && s.trades[key].locked >= 1
    requires !Lands(s.trades[key].locked, s.trades[key].liqPrice, price)
    requires AutoTopUp(s, key, price).Step? && AutoTopUp(s, key, price).outcome == Updated
    ensures var r := AutoTopUp(s, key, price).state;
      && key in r.trades && r.trades[key].locked >= 1 && TopUpTarget(price) > 0 && CanTopUp(r, r.trades[key], price)
      && !Lands(r.trades[key].locked, r.trades[key].liqPrice, price)
  {
    var t := s.trades[key];
    AutoTopUpResult(s, key, price);
    ToppedUpPositive(t.locked, t.liqPrice, price);
    SecondTopUpIsIdle(t.locked, t.liqPrice, price);
  }

  lemma TopUpSpares(s: State, key: Key, price: nat, a: Account)
    requires key in s.trades && a.owner != s.trades[key].borrower && a.owner != LENDING_LOCK
    ensures var r := AutoTopUp(s, key, price); r.Step? ==> BalanceOf(r.state.balances, a) == BalanceOf(s.balances, a)
  {
    hide MulDiv;
    AutoTopUpWithin(s, key, price);
  }

  /** Stubborn trades stay stubborn. */
  ghost predicate KeepsStubborn(start: State, s: State, m: Pair, price: nat) {
    forall k: Key :: Stubborn(start, m, price, k) ==> Stubborn(s, m, price, k)
  }

  lemma KeepsStart(s: State, m: Pair, price: nat)
    ensures KeepsStubborn(s, s, m, price)
  {
  }

  lemma KeepsTransitive(a: State, b: State, c: State, m: Pair, price: nat)
    requires KeepsStubborn(a, b, m, price) && KeepsStubborn(b, c, m, price)
    ensures KeepsStubborn(a, c, m, price)
  {
  }

  lemma KeepsByTopUp(start: State, s: State, m: Pair, price: nat, key: Key)
    requires Sound(s) && key in Above(s.trades, m, price) && s.trades[key].autoTopUp
      && KeepsStubborn(start, s, m, price)
    requires AutoTopUp(s, key, price).Step?
    ensures AutoTopUp(s, key, price).outcome == Updated ==>
      KeepsStubborn(start, AutoTopUp(s, key, price).state, m, price)
    ensures AutoTopUp(s, key, price).outcome == Refused ==> !Stubborn(s, m, price, key)
  {
    TopUpPanics(s, m, price, key);
    hide Stubborn, AutoTopUp, Sound;
    forall k: Key | Stubborn(s, m, price, k)
      ensures AutoTopUp(s, key, price).outcome == Updated ==> Stubborn(AutoTopUp(s, key, price).state, m, price, k)
      ensures k == key ==> AutoTopUp(s, key, price).outcome == Updated
    {
      StubbornTopUp(s, m, price, key, k);
    }
  }

  lemma KeepsByLiquidation(start: State, s: State, m: Pair, price: nat, key: Key)
    requires Sound(s) && key in Above(s.trades, m, price) && KeepsStubborn(start, s, m, price)
      && !Stubborn(s, m, price, key)
    ensures LiquidateTrade(s, key).Step? && KeepsStubborn(start, LiquidateTrade(s, key).state, m, price)
  {
    LiquidateOne(s, m, price, key);
    hide Stubborn, LiquidateTrade, Sound;
    forall k: Key | Stubborn(s, m, price, k) ensures Stubborn(LiquidateTrade(s, key).state, m, price, k) {
      StubbornLiquidate(s, m, price, key, k);
    }
  }

  lemma NoneStubborn(start: State, s: State, m: Pair, price: nat)
    requires KeepsStubborn(start, s, m, price) && Above(s.trades, m, price) == {}
    ensures forall k: Key :: !Stubborn(start, m, price, k)
  {
    forall k: Key ensures !Stubborn(start, m, price, k) {
      assert !Stubborn(s, m, price, k);
    }
  }

  lemma NoneStubbornAtZero(s: State, m: Pair)
    ensures forall k: Key :: !Stubborn(s, m, 0, k)
  {
  }

  lemma OnlyAutomaticStubborn(s: State, m: Pair, price: nat, key: Key)
    ensures Stubborn(s, m, price, key) ==> key in Above(s.trades, m, price) && s.trades[key].autoTopUp
  {
  }

  /**
   Where no borrower has two trades to top up at a price or invests there, every top-up settles unless a trade is
   stubborn.
   */
  lemma StubbornOrSettles(s: State, m: Pair, price: nat)
    requires TopUpsDivide(s.trades, m, price)
    requires forall k | k in Above(s.trades, m, price) && s.trades[k].autoTopUp ::
      Alone(s.trades, m, price, k) && !InvestsIn(s.trades, Above(s.trades, m, price), s.trades[k].borrower)
    ensures TopUpsSettle(s, m, price) <==> forall k | k in s.trades :: !Stubborn(s, m, price, k)
  {
    hide Lands, CanTopUp, Alone, InvestsIn;
    if price >= 2 {
      TargetBounds(price);
    }
    if TopUpsSettle(s, m, price) {
      forall k | k in s.trades ensures !Stubborn(s, m, price, k) {
        assert k in Above(s.trades, m, price) && s.trades[k].autoTopUp ==> SettlesAt(s, m, price, k);
      }
    } else {
      var k :| k in Above(s.trades, m, price) && s.trades[k].autoTopUp && !SettlesAt(s, m, price, k);
      assert Stubborn(s, m, price, k);
    }
  }

  // ----- the rates of a recall

  function RecallLimit(env: Env, m: Pair): nat
    requires env.RatesOf(m.collateral).recall > 0
  {
    MulDiv(env.PriceOf(m), BASE_RECALL, env.RatesOf(m.collateral).recall)
  }

  function RecallPrice(env: Env, m: Pair): nat
    requires env.RatesOf(m.collateral).deposit > 0
  {
    MulDiv(env.PriceOf(m), env.RatesOf(m.collateral).liquidation, env.RatesOf(m.collateral).deposit)
  }

  /** The recall phase divides by both. */
  predicate RatesSet(r: Rates) {
    r.recall > 0 && r.deposit > 0
  }

  /**
   A recall at these rates always raises the liquidation price of the trades it looks at, and leaves it below
   the collateral price.
   */
  predicate RatesOrdered(r: Rates) {
    100 * r.deposit <= r.liquidation * r.recall && r.liquidation <= r.deposit
  }

  lemma RecallRaises(env: Env, m: Pair)
    requires RatesSet(env.RatesOf(m.collateral))
    requires RatesOrdered(env.RatesOf(m.collateral))
    ensures RecallLimit(env, m) <= RecallPrice(env, m)
  {
    var r := env.RatesOf(m.collateral);
    QuotientOrder(env.PriceOf(m), BASE_RECALL, r.recall, r.liquidation, r.deposit);
  }

  /** If a / r <= b / d as fractions, so are the rounded products with c. */
  lemma QuotientOrder(c: nat, a: nat, r: nat, b: nat, d: nat)
    requires r > 0 && d > 0 && a * d <= b * r
    ensures MulDiv(c, a, r) <= MulDiv(c, b, d)
  {
    var q := MulDiv(c, a, r);
    // q * r <= c * a, so (q * d) * r <= c * (a * d) <= (c * b) * r
    MulOrder(q * r, c * a, d);
    Associate(q, r, d);
    Associate(q, d, r);
    assert r * d == d * r;
    Associate(c, a, d);
    if c > 0 {
      MulOrder(a * d, b * r, c);
    }
    assert c * (a * d) == (a * d) * c && c * (b * r) == (b * r) * c;
    Associate(c, b, r);
    MulOrder(q * d, c * b, r);
    AtLeast(c * b, d, q);
  }

  lemma RecallStaysBelow(env: Env, m: Pair)
    requires env.RatesOf(m.collateral).deposit > 0
    requires env.RatesOf(m.collateral).liquidation <= env.RatesOf(m.collateral).deposit
    ensures RecallPrice(env, m) <= env.PriceOf(m)
  {
    var c, r := env.PriceOf(m), env.RatesOf(m.collateral);
    QuotientOrder(c, r.liquidation, r.deposit, 1, 1);
    assert MulDiv(c, 1, 1) == c;
  }

  // ----- the recall phase

  /** The trades the recall phase looks at. */
  ghost function Candidates(trades: map<Key, Trade>, env: Env, m: Pair): set<Key>
    requires env.RatesOf(m.collateral).recall > 0
  {
    set k | k in trades && trades[k].Market() == m && trades[k].autoTopUp
      && 0 < trades[k].liqPrice < RecallLimit(env, m)
  }

  /** Between two states of the recall phase exactly the trades in recalled have moved, to the recall price. */
  ghost predicate Recalling(start: State, s: State, env: Env, m: Pair, recalled: set<Key>)
    requires RatesSet(env.RatesOf(m.collateral))
  {
    && Sound(s) && SameSlack(start, s) && SameResidue(start, s) && Evolves(start, s)
    && s.trades.Keys == start.trades.Keys
    && recalled <= Candidates(start.trades, env, m)
    && (forall k | k in s.trades && k !in recalled :: s.trades[k] == start.trades[k])
    && (forall k | k in recalled ::
        k in s.trades && s.trades[k].liqPrice == RecallPrice(env, m) > start.trades[k].liqPrice)
  }

  lemma RecallingStart(s: State, env: Env, m: Pair)
    requires RatesSet(env.RatesOf(m.collateral))
    requires Sound(s)
    ensures Recalling(s, s, env, m, {})
  {
  }

  /** The recalled trades have moved, and every candidate that has not is still to come. */
  ghost predicate RecallProgress(start: State, s: State, env: Env, m: Pair, recalled: set<Key>, todo: set<Key>)
    requires RatesSet(env.RatesOf(m.collateral))
  {
    && Recalling(start, s, env, m, recalled)
    && Candidates(start.trades, env, m) <= recalled + todo
    && forall k | k in todo ::
      k in start.trades && k !in recalled && (start.trades[k].autoTopUp ==> k in Candidates(start.trades, env, m))
  }

  lemma RecallBegins(s: State, env: Env, m: Pair, keys: set<Key>)
    requires RatesSet(env.RatesOf(m.collateral)) && Sound(s)
    requires keys == set e | e in s.prices && e.market == m && 0 < e.price < RecallLimit(env, m) :: e.key
    ensures RecallProgress(s, s, env, m, {}, keys)
  {
    RecallingStart(s, env, m);
    forall k | k in Candidates(s.trades, env, m) ensures k in keys {
      PriceOfOpenTrade(s, k);
    }
  }

  /** One trade of the recall phase: it is passed over, refused, or moved. */
  lemma RecallNext(start: State, s: State, env: Env, m: Pair, recalled: set<Key>, todo: set<Key>, key: Key)
    requires RatesSet(env.RatesOf(m.collateral)) && RecallProgress(start, s, env, m, recalled, todo) && key in todo
    ensures key in s.trades && s.trades[key] == start.trades[key]
    ensures !s.trades[key].autoTopUp ==> RecallProgress(start, s, env, m, recalled, todo - {key})
    ensures s.trades[key].autoTopUp ==>
      var r := RecallTrade(s, key, RecallPrice(env, m));
      && r.Step?
      && (r.outcome == Refused ==>
          r.state == s && key in Candidates(start.trades, env, m) && start.trades[key].liqPrice >= RecallPrice(env, m))
      && (r.outcome != Refused ==> RecallProgress(start, r.state, env, m, recalled + {key}, todo - {key}))
  {
    assert s.trades[key] == start.trades[key];
    if s.trades[key].autoTopUp {
      RecallOne(start, s, env, m, recalled, key);
    }
    hide RecallTrade, Recalling, RecallPrice, RecallLimit, Sound;
  }

  lemma RecallStops(start: State, s: State, env: Env, m: Pair, recalled: set<Key>, todo: set<Key>)
    requires RatesSet(env.RatesOf(m.collateral)) && RecallProgress(start, s, env, m, recalled, todo)
    ensures Recalling(start, s, env, m, recalled)
  {
  }

  lemma RecallEnds(start: State, s: State, env: Env, m: Pair, recalled: set<Key>)
    requires RatesSet(env.RatesOf(m.collateral)) && RecallProgress(start, s, env, m, recalled, {})
    ensures Recalling(start, s, env, m, recalled) && recalled == Candidates(start.trades, env, m)
    ensures forall k | k in recalled :: k in start.trades && start.trades[k].liqPrice < RecallPrice(env, m)
  {
  }

  lemma RecallOne(start: State, s: State, env: Env, m: Pair, recalled: set<Key>, key: Key)
    requires RatesSet(env.RatesOf(m.collateral))
    requires Recalling(start, s, env, m, recalled)
    requires key in Candidates(start.trades, env, m) && key !in recalled
    ensures var r := RecallTrade(s, key, RecallPrice(env, m));
      && r.Step?
      && (r.outcome == Refused <==> start.trades[key].liqPrice >= RecallPrice(env, m))
      && (r.outcome == Refused ==> r.state == s)
      && (r.outcome == Updated || r.outcome == Refused)
      && (r.outcome == Updated ==> Recalling(start, r.state, env, m, recalled + {key}))
  {
    hide RecallTrade, RecallPrice, RecallLimit, Covered, OutsideParties, Backed;
    assert s.trades[key] == start.trades[key];
    RecallEffect(s, key, RecallPrice(env, m));
    RecallKeepsSlack(s, key, RecallPrice(env, m));
    var r := RecallTrade(s, key, RecallPrice(env, m));
    SlackTransitive(start, s, r.state);
  }

  // ----- the whole pass

  /**
   What a pair needs for its phases to end well, whatever the time phase does: its top-ups land and its rates
   are set and ordered.
   */
  ghost predicate PairCalm(s: State, env: Env, m: Pair) {
    env.PriceOf(m) > 0 ==>
      && TopUpsDivide(s.trades, m, env.PriceOf(m)) && TopUpsLand(s.trades, m, env.PriceOf(m))
      && RatesSet(env.RatesOf(m.collateral)) && RatesOrdered(env.RatesOf(m.collateral))
  }

  ghost predicate TopUpsLand(trades: map<Key, Trade>, m: Pair, price: nat) {
    forall k | k in Above(trades, m, price) && trades[k].autoTopUp :: Lands(trades[k].locked, trades[k].liqPrice, price)
  }

  /** Nine units on every trade with automatic top-ups make a pair calm, at any price from two on. */
  lemma NineIsCalm(s: State, env: Env, m: Pair)
    requires env.PriceOf(m) != 1 && RatesSet(env.RatesOf(m.collateral)) && RatesOrdered(env.RatesOf(m.collateral))
    requires forall k | k in s.trades && s.trades[k].Market() == m && s.trades[k].autoTopUp :: s.trades[k].locked >= 9
    ensures PairCalm(s, env, m)
  {
    hide Lands, RatesSet, RatesOrdered;
    var price := env.PriceOf(m);
    forall k | k in Above(s.trades, m, price) && s.trades[k].autoTopUp && price > 0
      ensures Lands(s.trades[k].locked, s.trades[k].liqPrice, price)
    {
      LandsFromNine(s.trades[k].locked, s.trades[k].liqPrice, price);
    }
  }

  lemma LandingSettles(s: State, m: Pair, price: nat)
    requires TopUpsDivide(s.trades, m, price) && TopUpsLand(s.trades, m, price)
    ensures TopUpsSettle(s, m, price)
  {
    if price >= 2 {
      TargetBounds(price);
    }
  }

  /** Between two states only trades of one pair have changed, and none has appeared. */
  ghost predicate OnlyPair(start: State, s: State, m: Pair) {
    && Sound(s) && SameSlack(start, s) && SameResidue(start, s) && Evolves(start, s)
    && forall k | k in start.trades && start.trades[k].Market() != m :: k in s.trades && s.trades[k] == start.trades[k]
  }

  lemma OnlyPairStart(s: State, m: Pair)
    requires Sound(s)
    ensures OnlyPair(s, s, m)
  {
  }

  lemma SettlingIsOnlyPair(start: State, s: State, m: Pair, price: nat, liquidated: set<Key>)
    requires Settling(start, s, m, price, liquidated)
    ensures OnlyPair(start, s, m) && Sound(s)
  {
  }

  lemma RecallingIsOnlyPair(start: State, mid: State, s: State, env: Env, m: Pair, recalled: set<Key>)
    requires RatesSet(env.RatesOf(m.collateral))
    requires OnlyPair(start, mid, m) && Recalling(mid, s, env, m, recalled)
    ensures OnlyPair(start, s, m)
    ensures env.RatesOf(m.collateral).liquidation <= env.RatesOf(m.collateral).deposit
      && Above(mid.trades, m, env.PriceOf(m)) == {}
      ==> Above(s.trades, m, env.PriceOf(m)) == {}
    ensures RatesOrdered(env.RatesOf(m.collateral)) ==>
      forall k | k in Candidates(mid.trades, env, m) :: k in mid.trades && mid.trades[k].liqPrice < RecallPrice(env, m)
  {
    if RatesOrdered(env.RatesOf(m.collateral)) {
      RecallRaises(env, m);
    }
    forall token ensures Slack(start, token) == Slack(s, token) {
      assert Slack(start, token) == Slack(mid, token);
    }
    if env.RatesOf(m.collateral).liquidation <= env.RatesOf(m.collateral).deposit
      && Above(mid.trades, m, env.PriceOf(m)) == {} {
      RecallStaysBelow(env, m);
      forall k | k in s.trades ensures k !in Above(s.trades, m, env.PriceOf(m)) {
        assert k !in Above(mid.trades, m, env.PriceOf(m));
      }
    }
  }

  lemma OnlyPairEvolves(start: State, s: State, r: State, m: Pair)
    requires OnlyPair(s, r, m) && Evolves(start, s)
    ensures Sound(r) && Evolves(start, r)
    ensures SameSlack(start, s) ==> SameSlack(start, r)
    ensures SameResidue(start, s) ==> SameResidue(start, r)
  {
    if SameSlack(start, s) {
      forall token ensures Slack(start, token) == Slack(r, token) {
        assert Slack(start, token) == Slack(s, token);
      }
    }
  }

  lemma CalmAfterPair(s: State, r: State, env: Env, m: Pair, other: Pair)
    requires PairCalm(s, env, other) && OnlyPair(s, r, m)
    requires PairBelow(r.trades, env, m)
    ensures PairCalm(r, env, other)
  {
    if other != m {
      SameMarket(s, r, m, other, env.PriceOf(other));
    }
  }

  /** A calm pair finishes. */
  lemma CalmFinishes(s: State, r: State, env: Env, m: Pair, result: Pass)
    requires result == Stuck ==> !TopUpsSettle(s, m, env.PriceOf(m))
    requires result == Halted ==> !TopUpsDivide(s.trades, m, env.PriceOf(m)) || !RatesSet(env.RatesOf(m.collateral))
    requires result == Failed ==> !RatesOrdered(env.RatesOf(m.collateral))
    requires env.PriceOf(m) == 0 ==> result == Finished
    ensures PairCalm(s, env, m) ==> result == Finished
  {
    if PairCalm(s, env, m) && env.PriceOf(m) > 0 {
      LandingSettles(s, m, env.PriceOf(m));
    }
  }

  /** What a finished pair promises. */
  ghost predicate PairBelow(trades: map<Key, Trade>, env: Env, m: Pair) {
    env.PriceOf(m) > 0 && env.RatesOf(m.collateral).liquidation <= env.RatesOf(m.collateral).deposit ==>
      Above(trades, m, env.PriceOf(m)) == {}
  }

  lemma BelowAfterPair(s: State, r: State, env: Env, m: Pair, other: Pair)
    requires OnlyPair(s, r, m) && PairBelow(s.trades, env, other) && PairBelow(r.trades, env, m)
    ensures PairBelow(r.trades, env, other)
  {
    if other != m {
      SameMarket(s, r, m, other, env.PriceOf(other));
    }
  }

  lemma SameMarket(s: State, r: State, m: Pair, other: Pair, price: nat)
    requires OnlyPair(s, r, m) && other != m
    ensures Above(r.trades, other, price) == Above(s.trades, other, price)
    ensures forall k | k in Above(r.trades, other, price) :: r.trades[k] == s.trades[k]
  {
    forall k | k in Above(r.trades, other, price)
      ensures k in Above(s.trades, other, price) && r.trades[k] == s.trades[k]
    {
      assert s.trades[k].Market() == r.trades[k].Market();
    }
  }

  lemma ClosingEvolves(start: State, s: State, closed: set<Key>)
    requires Closing(start, s, closed)
    ensures Sound(s) && SameSlack(start, s) && SameResidue(start, s) && Evolves(start, s) && Evolves(s, s)
  {
  }

  lemma CalmAfterClosing(start: State, s: State, closed: set<Key>, env: Env, m: Pair)
    requires Closing(start, s, closed) && PairCalm(start, env, m)
    ensures PairCalm(s, env, m)
  {
    var price := env.PriceOf(m);
    assert forall k | k in Above(s.trades, m, price) ::
      k in Above(start.trades, m, price) && s.trades[k] == start.trades[k];
  }

  lemma StaysSettled(s: State, r: State, closed: set<Key>, book: Book, now: nat)
    requires Closing(s, r, closed) && Expired(s.trades, book, now) == {}
    ensures Expired(r.trades, book, now) == {}
  {
    forall k | k in r.trades ensures k !in Expired(r.trades, book, now) {
      assert k !in Expired(s.trades, book, now);
    }
  }

  lemma ExpiredAfter(s: State, r: State, book: Book, now: nat)
    requires Evolves(s, r) && Expired(s.trades, book, now) == {}
    ensures Expired(r.trades, book, now) == {}
  {
    forall k | k in r.trades ensures k !in Expired(r.trades, book, now) {
      assert k !in Expired(s.trades, book, now);
    }
  }
}
