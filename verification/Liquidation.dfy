/**
 The epoch liquidation pass (XDCxlending/XDCxlending.go, ProcessLiquidationData): expired trades are
 settled book by book, trades whose liquidation price is above the collateral price are topped up or
 liquidated pair by pair, and over-collateralised trades are recalled.

 The lending state is an object whose operations work step by step in place; each is proved against
 the function of LendingTrades that describes it. Where the source ranges over a Go map, the order is
 an arbitrary choice. Where a loop of the source would go round without end in one unchanged state, the
 method returns Stuck in that state.
 */
module Liquidation {
  import opened Division
  import opened Ledger
  import opened LendingTrades
  import opened TopUpArithmetic
  import opened LiquidationSteps

  method Lowest(times: set<nat>) returns (lowest: nat)
    ensures if times == {} then lowest == 0 else lowest in times && forall t | t in times :: lowest <= t
  {
    lowest := 0;
    if times != {} {
      lowest :| lowest in times;
      var todo := times;
      ghost var seen: set<nat> := {};
      while todo != {}
        invariant todo + seen == times && lowest in times
        invariant forall t | t in seen :: lowest <= t
        decreases |todo|
      {
        var t :| t in todo;
        todo, seen := todo - {t}, seen + {t};
        if t < lowest {
          lowest := t;
        }
      }
    }
  }

  class LendingBook {
    var balances: Balances
    var trades: map<Key, Trade>
    var times: set<TimeEntry>
    var surplus: multiset<Slot>
    var prices: set<PriceEntry>

    function View(): State
      reads this
    {
      State(balances, trades, times, surplus, prices)
    }

    constructor (s: State)
      ensures View() == s
    {
      balances, trades, times, surplus, prices := s.balances, s.trades, s.times, s.surplus, s.prices;
    }

    // ----- one trade at a time

    method CloseTrade(key: Key, done: Outcome) returns (outcome: Outcome)
      requires key in trades
      modifies this
      ensures Step(View(), outcome) == RemoveTrade(old(View()), key, done)
    {
      var t := trades[key];
      if TimeEntry(t.liqTime, key) !in times {
        return Refused;
      }
      times := times - {TimeEntry(t.liqTime, key)};
      if PriceEntry(t.Market(), t.liqPrice, key) !in prices {
        return Refused;
      }
      prices := prices - {PriceEntry(t.Market(), t.liqPrice, key)};
      trades := trades - {key};
      return done;
    }

    method LiquidationTrade(key: Key) returns (outcome: Outcome)
      modifies this
      ensures Step(View(), outcome) == LiquidateTrade(old(View()), key)
    {
      if key !in trades {
        return Refused;
      }
      var t := trades[key];
      balances := Debit(balances, Account(t.collateralToken, LENDING_LOCK), t.locked);
      balances := Credit(balances, Account(t.collateralToken, t.investor), t.locked);
      outcome := CloseTrade(key, Liquidated);
    }

    method LiquidationExpiredTrade(env: Env, key: Key) returns (outcome: Outcome)
      requires !LiquidateExpired(View(), env, key).Panicked?
      modifies this
      ensures Step(View(), outcome) == LiquidateExpired(old(View()), env, key)
    {
      hide ExpiredRepay, RemoveTrade, Credit, Debit;
      if key !in trades {
        return Refused;
      }
      var t := trades[key];
      var repay := t.locked;
      if env.PriceOf(t.Market()) > 0 {
        repay := ExpiredRepay(t, env.now, env.PriceOf(t.Market()), env.RatesOf(t.collateralToken).liquidation);
      }
      if repay < t.locked {
        balances := Credit(balances, Account(t.collateralToken, t.borrower), t.locked - repay);
      } else {
        repay := t.locked;
      }
      balances := Debit(balances, Account(t.collateralToken, LENDING_LOCK), t.locked);
      balances := Credit(balances, Account(t.collateralToken, t.investor), repay);
      outcome := CloseTrade(key, Liquidated);
    }

    method ProcessRepayLendingTrade(env: Env, key: Key) returns (outcome: Outcome)
      requires !RepayTrade(View(), env, key).Panicked?
      modifies this
      ensures Step(View(), outcome) == RepayTrade(old(View()), env, key)
    {
      if key !in trades {
        return Refused;
      }
      var t := trades[key];
      var payment := TotalRepayValue(env.now, t.liqTime, t.term, t.interest, t.amount);
      if BalanceOf(balances, Account(t.lendingToken, t.borrower)) < payment {
        if t.liqTime > env.now {
          return Refused;
        }
        if env.expiredAtPrice {
          outcome := LiquidationExpiredTrade(env, key);
        } else {
          outcome := LiquidationTrade(key);
        }
      } else {
        balances := Debit(balances, Account(t.lendingToken, t.borrower), payment);
        balances := Credit(balances, Account(t.lendingToken, t.investor), payment);
        balances := Debit(balances, Account(t.collateralToken, LENDING_LOCK), t.locked);
        balances := Credit(balances, Account(t.collateralToken, t.borrower), t.locked);
        outcome := CloseTrade(key, Repaid);
      }
    }

    method UpdateTrade(key: Key, locked: nat, liqPrice: nat)
      requires key in trades
      modifies this
      ensures View() == Reprice(old(View()), key, locked, liqPrice)
    {
      trades := trades[key := trades[key].(liqPrice := liqPrice)];
      trades := trades[key := trades[key].(locked := locked)];
      prices := prices + {PriceEntry(trades[key].Market(), liqPrice, key)};
    }

    method ProcessTopUpLendingTrade(key: Key, quantity: nat) returns (outcome: Outcome)
      requires !TopUpTrade(View(), key, quantity).Panicked?
      modifies this
      ensures Step(View(), outcome) == TopUpTrade(old(View()), key, quantity)
    {
      if key !in trades {
        return Refused;
      }
      var t := trades[key];
      if BalanceOf(balances, Account(t.collateralToken, t.borrower)) < quantity {
        return Refused;
      }
      if PriceEntry(t.Market(), t.liqPrice, key) !in prices {
        return Refused;
      }
      prices := prices - {PriceEntry(t.Market(), t.liqPrice, key)};
      balances := Debit(balances, Account(t.collateralToken, t.borrower), quantity);
      balances := Credit(balances, Account(t.collateralToken, LENDING_LOCK), quantity);
      UpdateTrade(key, quantity + t.locked, MulDiv(t.liqPrice, t.locked, quantity + t.locked));
      return Updated;
    }

    method AutoTopUpTrade(key: Key, price: nat) returns (outcome: Outcome)
      requires !AutoTopUp(View(), key, price).Panicked?
      modifies this
      ensures Step(View(), outcome) == AutoTopUp(old(View()), key, price)
    {
      if key !in trades {
        return Refused;
      }
      var t := trades[key];
      if price >= t.liqPrice {
        return Refused;
      }
      var locked := MulDiv(t.locked, t.liqPrice, TopUpTarget(price));
      TopUpGrows(t.locked, t.liqPrice, TopUpTarget(price));
      var required := locked - t.locked;
      if BalanceOf(balances, Account(t.collateralToken, t.borrower)) < required {
        return Refused;
      }
      outcome := ProcessTopUpLendingTrade(key, required);
    }

    method ProcessRecallLendingTrade(key: Key, liqPrice: nat) returns (outcome: Outcome)
      modifies this
      ensures Step(View(), outcome) == RecallTrade(old(View()), key, liqPrice)
    {
      if key !in trades {
        return Refused;
      }
      var t := trades[key];
      if liqPrice <= t.liqPrice {
        return Refused;
      }
      var locked := MulDiv(t.locked, t.liqPrice, liqPrice);
      RecallShrinks(t.locked, t.liqPrice, liqPrice);
      if PriceEntry(t.Market(), t.liqPrice, key) !in prices {
        return Refused;
      }
      prices := prices - {PriceEntry(t.Market(), t.liqPrice, key)};
      balances := Credit(balances, Account(t.collateralToken, t.borrower), t.locked - locked);
      balances := Debit(balances, Account(t.collateralToken, LENDING_LOCK), t.locked - locked);
      UpdateTrade(key, locked, liqPrice);
      return Updated;
    }

    // ----- reading the indexes

    /**
     GetLowestLiquidationTime: the earliest time of a book and its trades; zero when there is none. A time is in
     the index as long as it was inserted more often than removed, even when it lists no trade.
     */
    method LowestLiquidationTime(book: Book) returns (lowest: nat, keys: set<Key>)
      ensures LowestTime(View(), book, lowest, keys)
    {
      hide LowestTime;
      var slots := (set e | e in times && e.key.book == book :: e.time)
        + (set x | x in surplus && x.book == book :: x.time);
      lowest := Lowest(slots);
      keys := set e | e in times && e.key.book == book && e.time == lowest :: e.key;
      LowestOf(View(), book, slots, lowest, keys);
    }

    /** GetHighestLiquidationPriceData: the highest price of a pair and its trades; zero when there is none. */
    method HighestLiquidationPrice(m: Pair) returns (highest: nat, keys: set<Key>)
      ensures HighestPrice(prices, m, highest, keys)
    {
      var entries := set e | e in prices && e.market == m;
      highest := 0;
      var todo := entries;
      ghost var seen: set<PriceEntry> := {};
      while todo != {}
        invariant todo <= entries && seen == entries - todo
        invariant highest > 0 ==> exists e :: e in entries && e.price == highest
        invariant forall e | e in seen :: e.price <= highest
      {
        var e :| e in todo;
        todo, seen := todo - {e}, seen + {e};
        if e.price > highest {
          highest := e.price;
        }
      }
      keys := set e | e in prices && e.market == m && e.price == highest :: e.key;
      if highest > 0 {
        ghost var w :| w in entries && w.price == highest;
        assert w.key in keys;
      }
    }

    // ----- the three phases

    /** Settles the trades listed at one expired liquidation time, in any order. */
    method SettleAtTime(env: Env, keys: set<Key>) returns (result: Pass, closed: set<Key>, liquidated: set<Key>)
      requires Sound(View())
      modifies this
      ensures result != Stuck && closed <= keys && closed <= old(trades).Keys
      ensures Closing(old(View()), View(), closed) && Distributes(old(View()), View(), env, closed, liquidated)
      ensures result == Finished ==> closed == keys
      ensures result == Failed ==> exists k :: k in keys && (k in old(trades) ==> old(trades)[k].liqTime > env.now)
      ensures result == Halted ==> !LiquidationRatesSet(old(trades), env)
    {
      hide RepayTrade, Sound, Closing, Distributes, LiquidationRatesSet;
      closed, liquidated := {}, {};
      var todo := keys;
      ghost var start := View();
      ClosingStart(start);
      DistributesNothing(start, env);
      while todo != {}
        invariant todo + closed == keys && todo !! closed && closed <= start.trades.Keys
        invariant Closing(start, View(), closed) && Distributes(start, View(), env, closed, liquidated)
        decreases |todo|
      {
        var key :| key in todo;
        CloseOne(start, View(), closed, env, key);
        ClosedTrades(start, View(), closed, key);
        if RepayTrade(View(), env, key).Panicked? {
          return Halted, closed, liquidated;
        }
        if RepayTrade(View(), env, key).outcome != Refused {
          DistributesOne(start, View(), env, closed, liquidated, key);
        }
        var outcome := ProcessRepayLendingTrade(env, key);
        if outcome == Refused {
          return Failed, closed, liquidated;
        }
        todo, closed := todo - {key}, closed + {key};
        if outcome == Liquidated {
          liquidated := liquidated + {key};
        }
      }
      assert closed == keys;
      result := Finished;
    }

    /**
     The time phase for one book. A slot at time zero hides all others and nothing is closed. Otherwise it
     finishes, having closed exactly the trades that expired before the block time, if no time before it lists a
     stray trade or was inserted more often than it lists trades; a stray fails it, and a slot without trades
     keeps it going round forever.
     */
    method SettleExpiredTrades(env: Env, book: Book) returns (result: Pass, closed: set<Key>, liquidated: set<Key>)
      requires Sound(View())
      modifies this
      ensures Closing(old(View()), View(), closed) && Distributes(old(View()), View(), env, closed, liquidated)
      ensures closed <= old(trades).Keys && forall k | k in closed :: k.book == book
      ensures ZeroSlot(old(View()), book) ==> result == Finished && closed == {}
      ensures result == Finished ==> BookClears(old(View()), book, env.now)
      ensures result == Finished && !ZeroSlot(old(View()), book) ==> closed == Expired(old(trades), book, env.now)
      ensures result == Failed ==> HasStray(old(View()), book, env.now)
      ensures result == Stuck ==> HasSurplus(old(View()), book, env.now) && StuckTime(View(), book, env.now)
      ensures result == Halted ==> !LiquidationRatesSet(old(trades), env)
    {
      hide RepayTrade, Sound, Closing, Distributes, Expired, ZeroSlot, HasStray, HasSurplus, LiquidationRatesSet,
           LowestTime;
      closed, liquidated := {}, {};
      var lowest: nat, keys := LowestLiquidationTime(book);
      ghost var start := View();
      ClosingStart(start);
      DistributesNothing(start, env);
      ZeroIsLowest(start, book, lowest, keys);
      while 0 < lowest < env.now
        invariant Closing(start, View(), closed) && Distributes(start, View(), env, closed, liquidated)
        invariant closed <= start.trades.Keys && forall k | k in closed :: k.book == book
        invariant !HasStray(start, book, env.now) ==> closed <= Expired(start.trades, book, env.now)
        invariant LowestTime(View(), book, lowest, keys)
        invariant ZeroSlot(start, book) ==> lowest == 0 && closed == {}
        decreases |trades|
      {
        ghost var s := View();
        AtLowestTime(start, s, closed, book, lowest, keys, env.now);
        if keys == {} {
          return Stuck, closed, liquidated;
        }
        ClosingEvolves(start, s, closed);
        var done, c, l := SettleAtTime(env, keys);
        ClosingTransitive(start, s, View(), closed, c);
        DistributesBoth(start, s, View(), env, closed, c, liquidated, l);
        RatesAfterClosing(start, s, closed, env);
        ClosedKeys(start, s, closed, c);
        closed, liquidated := closed + c, liquidated + l;
        if done != Finished {
          return done, closed, liquidated;
        }
        ClosingShrinks(s, View(), keys);
        lowest, keys := LowestLiquidationTime(book);
      }
      if !ZeroSlot(start, book) {
        ZeroSlotStays(start, View(), closed, book);
        NothingBefore(start, View(), closed, book, env.now, lowest, keys);
        ExactlyExpired(start, View(), closed, book, env.now);
      }
      result := Finished;
    }

    /** Tops up or liquidates the trades of one liquidation price above the collateral price, in any order. */
    method SettleAtPrice(m: Pair, price: nat, keys: set<Key>) returns (result: Pass, liquidated: set<Key>)
      requires Sound(View()) && keys <= Above(trades, m, price)
      modifies this
      ensures result == Finished || result == Halted
      ensures Settling(old(View()), View(), m, price, liquidated)
      ensures result == Finished ==> PriceProgress(old(View()), View(), m, price, keys, liquidated)
      ensures result == Halted ==> !TopUpsDivide(old(trades), m, price)
      ensures KeepsStubborn(old(View()), View(), m, price)
      ensures AllIdle(old(trades), keys, price) ==>
        result == Finished && liquidated == {} && Unmoved(old(View()), View())
    {
      hide LiquidateTrade, AutoTopUp, AllIdle, Unmoved, Sound, Settling, PriceProgress, TopUpsDivide, Above, Stubborn,
           KeepsStubborn, TopUpsSettle, Untouched;
      ghost var start := View();
      ProgressStart(start, m, price);
      KeepsStart(start, m, price);
      UnmovedStart(start);
      liquidated := {};
      var todo := keys;
      ghost var done: set<Key> := {};
      while todo != {}
        invariant todo + done == keys && todo !! done
        invariant PriceProgress(start, View(), m, price, done, liquidated) && KeepsStubborn(start, View(), m, price)
        invariant AllIdle(start.trades, keys, price) ==> liquidated == {} && Unmoved(start, View())
        decreases |todo|
      {
        var key :| key in todo;
        NotYetVisited(start, View(), m, price, done, liquidated, key);
        OnlyAutomaticStubborn(View(), m, price, key);
        if AllIdle(start.trades, keys, price) {
          IdleNext(start, View(), m, price, keys, key);
        }
        todo := todo - {key};
        if trades[key].autoTopUp {
          TopUpNext(start, View(), m, price, done, liquidated, key);
          if AutoTopUp(View(), key, price).Panicked? {
            ProgressSettles(start, View(), m, price, done, liquidated);
            return Halted, liquidated;
          }
          KeepsByTopUp(start, View(), m, price, key);
          var outcome := AutoTopUpTrade(key, price);
          if outcome == Updated {
            done := done + {key};
            continue;
          }
        }
        LiquidateNext(start, View(), m, price, done, liquidated, key);
        KeepsByLiquidation(start, View(), m, price, key);
        var outcome := LiquidationTrade(key);
        done, liquidated := done + {key}, liquidated + {key};
      }
      assert done == keys;
      ProgressSettles(start, View(), m, price, done, liquidated);
      result := Finished;
    }

    /**
     The price phase for one pair: if it finishes, no trade of the pair is above the collateral price. It
     finishes whenever every automatic top-up this price asks for lands or cannot be paid, and never while a
     stubborn trade is above the price: then it goes round with top-ups of nothing.
     */
    method SettleHighPrices(m: Pair, price: nat) returns (result: Pass, liquidated: set<Key>)
      requires Sound(View())
      modifies this
      ensures result != Failed
      ensures Settling(old(View()), View(), m, price, liquidated)
      ensures result == Finished ==> Above(trades, m, price) == {}
      ensures result == Stuck ==> StuckPrice(View(), m, price) && !TopUpsSettle(old(View()), m, price)
      ensures result == Halted ==> !TopUpsDivide(old(trades), m, price)
      ensures (exists k: Key :: Stubborn(old(View()), m, price, k)) ==> result != Finished
    {
      hide Sound, Settling, PriceProgress, TopUpsDivide, TopUpsSettle, Above, HighestPrice, Untouched, AllIdle,
           Stubborn, KeepsStubborn;
      liquidated := {};
      var highest: nat, keys := HighestLiquidationPrice(m);
      ghost var start := View();
      SettlingStart(start, m, price);
      KeepsStart(start, m, price);
      while highest > 0 && price < highest
        invariant Settling(start, View(), m, price, liquidated) && KeepsStubborn(start, View(), m, price)
        invariant HighestPrice(prices, m, highest, keys)
        invariant TopUpsSettle(start, m, price) ==> Untouched(start, View(), m, price)
        decreases highest
      {
        ghost var s := View();
        SettlingSound(start, s, m, price, liquidated);
        AtHighestPrice(s, m, price, highest, keys);
        var done, l := SettleAtPrice(m, price, keys);
        SettlingTransitive(start, s, View(), m, price, liquidated, l);
        KeepsTransitive(start, s, View(), m, price);
        AllSettleLater(start, s, View(), m, price, liquidated);
        liquidated := liquidated + l;
        if done != Finished {
          return done, liquidated;
        }
        var next: nat, left := HighestLiquidationPrice(m);
        AllVisited(s, View(), m, price, highest, keys, l, next, left);
        if next == highest {
          assert StuckPrice(View(), m, price);
          return Stuck, liquidated;
        }
        highest, keys := next, left;
      }
      NoneAboveLeft(start, View(), m, price, liquidated, highest, keys);
      NoneStubborn(start, View(), m, price);
      result := Finished;
    }

    /** What the price phase does once it is stuck: its next round changes nothing and finds the same price again. */
    method RoundAgain(m: Pair, price: nat) returns (result: Pass, liquidated: set<Key>)
      requires Sound(View()) && StuckPrice(View(), m, price)
      modifies this
      ensures result == Finished && liquidated == {} && Unmoved(old(View()), View())
      ensures Sound(View()) && StuckPrice(View(), m, price)
    {
      hide Sound, Settling, PriceProgress, KeepsStubborn, Above, HighestPrice, AllIdle, StuckPrice, Unmoved;
      ghost var start := View();
      var highest, keys := HighestLiquidationPrice(m);
      StuckAgain(start, start, m, price, highest, keys);
      AtHighestPrice(start, m, price, highest, keys);
      result, liquidated := SettleAtPrice(m, price, keys);
      StuckAgain(start, View(), m, price, highest, keys);
      SettlingSound(start, View(), m, price, liquidated);
    }

    /**
     The recall phase for one pair. With both rates set it succeeds if and only if the recall price is above the
     liquidation price of every trade it looks at; then exactly those trades move to the recall price.
     */
    method RecallTrades(env: Env, m: Pair) returns (result: Pass, recalled: set<Key>)
      requires Sound(View())
      modifies this
      ensures result == Halted <==> !RatesSet(env.RatesOf(m.collateral))
      ensures result == Halted ==> View() == old(View())
      ensures RatesSet(env.RatesOf(m.collateral)) ==>
        && Recalling(old(View()), View(), env, m, recalled)
        && (result == Finished || result == Failed)
        && (result == Finished <==> forall k | k in Candidates(old(trades), env, m) ::
            old(trades)[k].liqPrice < RecallPrice(env, m))
        && (result == Finished ==> recalled == Candidates(old(trades), env, m))
    {
      hide RecallTrade, Sound, Recalling, RecallProgress, Candidates, RecallPrice, MulDiv;
      recalled := {};
      if env.RatesOf(m.collateral).recall == 0 || env.RatesOf(m.collateral).deposit == 0 {
        return Halted, recalled;
      }
      var limit, liqPrice := RecallLimit(env, m), RecallPrice(env, m);
      ghost var start := View();
      var todo := set e | e in prices && e.market == m && 0 < e.price < limit :: e.key;
      RecallBegins(start, env, m, todo);
      while todo != {}
        invariant RecallProgress(start, View(), env, m, recalled, todo)
        decreases |todo|
      {
        var key :| key in todo;
        RecallNext(start, View(), env, m, recalled, todo, key);
        if trades[key].autoTopUp {
          var outcome := ProcessRecallLendingTrade(key, liqPrice);
          if outcome == Refused {
            RecallStops(start, View(), env, m, recalled, todo);
            return Failed, recalled;
          }
          recalled := recalled + {key};
        }
        todo := todo - {key};
      }
      RecallEnds(start, View(), env, m, recalled);
      result := Finished;
    }

    /**
     The time phase over all listed books, in any order. Every account moves by exactly what the closed trades owe it:
     a repaid trade pays the investor amount and interest and returns the collateral, a liquidated one shares it.
     */
    method SettleBooks(env: Env, books: set<Book>) returns (result: Pass, closed: set<Key>, liquidated: set<Key>)
      requires Sound(View())
      modifies this
      ensures Closing(old(View()), View(), closed) && Distributes(old(View()), View(), env, closed, liquidated)
      ensures result == Finished ==> forall b | b in books ::
        BookClears(old(View()), b, env.now) && (!ZeroSlot(old(View()), b) ==> Expired(trades, b, env.now) == {})
      ensures result == Failed ==> exists b :: b in books && HasStray(old(View()), b, env.now)
      ensures result == Stuck ==> exists b :: b in books && HasSurplus(old(View()), b, env.now)
      ensures result == Halted ==> !LiquidationRatesSet(old(trades), env)
    {
      hide Sound, Closing, Distributes, Expired, ZeroSlot, HasStray, HasSurplus, BookClears, LiquidationRatesSet,
           StuckTime;
      closed, liquidated := {}, {};
      ghost var start := View();
      ClosingStart(start);
      DistributesNothing(start, env);
      var todo := books;
      while todo != {}
        invariant todo <= books
        invariant Closing(start, View(), closed) && Distributes(start, View(), env, closed, liquidated)
        invariant forall k | k in closed :: k.book !in todo
        invariant forall b | b in books - todo ::
          BookClears(start, b, env.now) && (!ZeroSlot(start, b) ==> Expired(trades, b, env.now) == {})
        decreases |todo|
      {
        var book :| book in todo;
        ghost var s := View();
        ClosingEvolves(start, s, closed);
        var done, c, l := SettleExpiredTrades(env, book);
        DistributesBoth(start, s, View(), env, closed, c, liquidated, l);
        BookSettled(start, s, View(), closed, c, env, book, done);
        forall b | b in books - todo && !ZeroSlot(start, b) ensures Expired(trades, b, env.now) == {} {
          StaysSettled(s, View(), c, b, env.now);
        }
        closed, liquidated := closed + c, liquidated + l;
        if done != Finished {
          return done, closed, liquidated;
        }
        todo := todo - {book};
      }
      result := Finished;
    }

    /** The price and recall phases of one pair; an unavailable price skips the pair. */
    method SettlePair(env: Env, m: Pair) returns (result: Pass)
      requires Sound(View())
      modifies this
      ensures OnlyPair(old(View()), View(), m)
      ensures env.PriceOf(m) == 0 ==> result == Finished && View() == old(View())
      ensures result == Finished && env.PriceOf(m) > 0
        && env.RatesOf(m.collateral).liquidation <= env.RatesOf(m.collateral).deposit
        ==> Above(trades, m, env.PriceOf(m)) == {}
      ensures result == Stuck ==> StuckPrice(View(), m, env.PriceOf(m)) && !TopUpsSettle(old(View()), m, env.PriceOf(m))
      ensures (exists k: Key :: Stubborn(old(View()), m, env.PriceOf(m), k)) ==> result == Stuck || result == Halted
      ensures result == Halted ==> !TopUpsDivide(old(trades), m, env.PriceOf(m)) || !RatesSet(env.RatesOf(m.collateral))
      ensures result == Failed ==> !RatesOrdered(env.RatesOf(m.collateral))
    {
      hide Sound, Settling, Recalling, OnlyPair, Above, Candidates, RecallPrice, RecallLimit, RatesOrdered,
           TopUpsSettle, TopUpsDivide, StuckPrice, Stubborn;
      ghost var start := View();
      var price := env.PriceOf(m);
      if price == 0 {
        OnlyPairStart(start, m);
        NoneStubbornAtZero(start, m);
        return Finished;
      }
      var done, liquidated := SettleHighPrices(m, price);
      ghost var mid := View();
      SettlingIsOnlyPair(start, mid, m, price, liquidated);
      if done != Finished {
        return done;
      }
      var recalled;
      result, recalled := RecallTrades(env, m);
      if result != Halted {
        RecallingIsOnlyPair(start, mid, View(), env, m, recalled);
      }
    }

    /**
     The whole pass, from any state a run can reach. Whatever happens, no trade is opened, the slack of the lock
     account stays, and so does what the time index holds beside the open trades. If the pass finishes, no trade
     of a listed book is expired unless time zero hides it, and no trade of a listed pair with a price is above
     that price. A stray entry or a surplus slot before the block time in a listed book keeps it from finishing;
     without them it can only fail, stick or halt on the prices and rates.
     */
    method ProcessLiquidationData(env: Env, books: set<Book>, markets: seq<Pair>) returns (result: Pass)
      requires Sound(View())
      modifies this
      ensures Sound(View()) && SameSlack(old(View()), View()) && SameResidue(old(View()), View())
        && Evolves(old(View()), View())
      ensures result == Finished ==> forall b | b in books ::
        BookClears(old(View()), b, env.now) && (!ZeroSlot(old(View()), b) ==> Expired(trades, b, env.now) == {})
      ensures result == Finished ==> forall m | m in markets && env.PriceOf(m) > 0 ::
        env.RatesOf(m.collateral).liquidation <= env.RatesOf(m.collateral).deposit ==>
          Above(trades, m, env.PriceOf(m)) == {}
      ensures result == Failed ==>
        (exists b :: b in books && HasStray(old(View()), b, env.now))
          || exists m :: m in markets && !PairCalm(old(View()), env, m)
      ensures result == Stuck ==>
        (exists b :: b in books && HasSurplus(old(View()), b, env.now))
          || exists m :: m in markets && !PairCalm(old(View()), env, m)
      ensures result == Halted ==>
        !LiquidationRatesSet(old(trades), env) || exists m :: m in markets && !PairCalm(old(View()), env, m)
    {
      hide Sound, Closing, OnlyPair, Expired, ZeroSlot, HasStray, HasSurplus, BookClears, Above, LiquidationRatesSet,
           RatesOrdered, Evolves, PairCalm, StuckPrice, TopUpsSettle, TopUpsDivide, SameSlack, SameResidue;
      ghost var start := View();
      var done, closed, liquidated := SettleBooks(env, books);
      ghost var mid := View();
      ClosingEvolves(start, mid, closed);
      if done != Finished {
        return done;
      }
      ghost var calm := forall m | m in markets :: PairCalm(start, env, m);
      forall m | m in markets && PairCalm(start, env, m) ensures PairCalm(mid, env, m) {
        CalmAfterClosing(start, mid, closed, env, m);
      }
      for i := 0 to |markets|
        invariant Sound(View()) && SameSlack(start, View()) && SameResidue(start, View()) && Evolves(start, View())
          && Evolves(mid, View())
        invariant calm ==> forall j | 0 <= j < |markets| :: PairCalm(View(), env, markets[j])
        invariant forall j | 0 <= j < i :: PairBelow(trades, env, markets[j])
      {
        ghost var s := View();
        result := SettlePair(env, markets[i]);
        OnlyPairEvolves(start, s, View(), markets[i]);
        OnlyPairEvolves(mid, s, View(), markets[i]);
        CalmFinishes(s, View(), env, markets[i], result);
        if result != Finished {
          return;
        }
        assert PairBelow(trades, env, markets[i]);
        forall j | 0 <= j < |markets| && calm ensures PairCalm(View(), env, markets[j]) {
          CalmAfterPair(s, View(), env, markets[i], markets[j]);
        }
        forall j | 0 <= j < i ensures PairBelow(trades, env, markets[j]) {
          BelowAfterPair(s, View(), env, markets[i], markets[j]);
        }
      }
      forall b | b in books && !ZeroSlot(start, b) ensures Expired(trades, b, env.now) == {} {
        ExpiredAfter(mid, View(), b, env.now);
      }
      result := Finished;
    }
  }
}
