/**
 Open lending trades: the trade table, the liquidation-time index, the liquidation-price index
 and the balances they lock, with the five operations that change an open trade
 (XDCxlending/order_processor.go).

 The three places are separate stores in the source. A trade is in the table while its amount is
 positive, so an absent key stands for the empty trade. The two indexes are sets of entries: the
 source refuses to remove an entry that is not there. The time index also counts the insertions at
 each time and keeps a time until the count is used up; the surplus is the count beyond the listed
 trades.
 */
module LendingTrades {
  import opened Division
  import opened Ledger
  import opened Sums

  /** The hash of a lending token and a term. */
  type Book = nat

  const RATE_TOP_UP := 90
  const BASE_TOP_UP := 100
  const BASE_RECALL := 100
  const ONE_YEAR := 365 * 86400
  const BASE_INTEREST_DECIMAL := 100000000 * 100
  const TWO_64 := 0x1_0000_0000_0000_0000

  /** The trading order book whose liquidation prices concern this collateral and lending token. */
  datatype Pair = Pair(collateral: Token, lending: Token)

  datatype Key = Key(book: Book, id: nat)

  datatype Trade = Trade(
    borrower: Address,
    investor: Address,
    borrowingRelayer: Address,
    lendingToken: Token,
    collateralToken: Token,
    term: nat,
    interest: nat,
    amount: nat,
    locked: nat,
    liqPrice: nat,
    liqTime: nat,
    autoTopUp: bool)
  {
    function Market(): Pair { Pair(collateralToken, lendingToken) }
  }

  datatype TimeEntry = TimeEntry(time: nat, key: Key)
  /** One liquidation time of a book, a list of trades in the time index. */
  datatype Slot = Slot(book: Book, time: nat)
  datatype PriceEntry = PriceEntry(market: Pair, price: nat, key: Key)

  datatype State = State(
    balances: Balances,
    trades: map<Key, Trade>,
    times: set<TimeEntry>,
    surplus: multiset<Slot>,
    prices: set<PriceEntry>)

  /** Deposit, liquidation and recall rate of a collateral token, in percent. */
  datatype Rates = Rates(deposit: nat, liquidation: nat, recall: nat)

  /**
   What a block fixes for every operation in it: its time, whether expired trades are settled at
   the collateral price, the collateral prices (a missing or zero price is unavailable) and the
   collateral rates (an unregistered token reads as zeros).
   */
  datatype Env = Env(now: nat, expiredAtPrice: bool, price: map<Pair, nat>, rates: map<Token, Rates>)
  {
    function PriceOf(m: Pair): nat { if m in price then price[m] else 0 }
    function RatesOf(t: Token): Rates { if t in rates then rates[t] else Rates(0, 0, 0) }
  }

  datatype Outcome = Repaid | Liquidated | Updated | Refused

  /** A refused operation still reports the state it leaves behind; a zero divisor halts the node. */
  datatype Step = Step(state: State, outcome: Outcome) | Panicked

  // ----- operations

  /** Simple interest for half of the term plus the time borrowed so far, on 64-bit clocks. */
  function InterestRate(now: nat, liqTime: nat, term: nat, apr: nat): nat {
    var borrowed := (now - (liqTime - term)) % TWO_64;
    MulDiv(apr, (term + borrowed) / 2, ONE_YEAR)
  }

  function TotalRepayValue(now: nat, liqTime: nat, term: nat, apr: nat, amount: nat): (v: nat)
    ensures v >= amount
  {
    var rate := InterestRate(now, liqTime, term, apr);
    RepayAtLeastAmount(amount, rate);
    MulDiv(amount, BASE_INTEREST_DECIMAL + rate, BASE_INTEREST_DECIMAL)
  }

  lemma RepayAtLeastAmount(amount: nat, rate: nat)
    ensures MulDiv(amount, BASE_INTEREST_DECIMAL + rate, BASE_INTEREST_DECIMAL) >= amount
  {
    var d := BASE_INTEREST_DECIMAL;
    assert amount * (d + rate) == amount * d + amount * rate;
    Monotone(amount * d, amount * (d + rate), d);
    Exact(amount, d);
  }

  /** Takes a trade out of the time index, the price index and the table, in that order. */
  function RemoveTrade(s: State, key: Key, outcome: Outcome): (r: Step)
    requires key in s.trades
  {
    var t := s.trades[key];
    if TimeEntry(t.liqTime, key) !in s.times then Step(s, Refused)
    else
      var s1 := s.(times := s.times - {TimeEntry(t.liqTime, key)});
      if PriceEntry(t.Market(), t.liqPrice, key) !in s1.prices then Step(s1, Refused)
      else
        var s2 := s1.(prices := s1.prices - {PriceEntry(t.Market(), t.liqPrice, key)});
        Step(s2.(trades := s2.trades - {key}), outcome)
  }

  function LiquidatedBalances(b: Balances, t: Trade): Balances {
    var b1 := Debit(b, Account(t.collateralToken, LENDING_LOCK), t.locked);
    Credit(b1, Account(t.collateralToken, t.investor), t.locked)
  }

  /** LiquidationTrade: the investor receives the whole locked collateral. */
  function LiquidateTrade(s: State, key: Key): (r: Step)
  {
    if key !in s.trades then Step(s, Refused)
    else
      RemoveTrade(s.(balances := LiquidatedBalances(s.balances, s.trades[key])), key, Liquidated)
  }

  /** The part of the collateral that pays the investor when a trade expires with a known price. */
  function ExpiredRepay(t: Trade, now: nat, price: nat, liquidationRate: nat): nat
    requires price > 0 && liquidationRate > 0
  {
    var principal := MulDiv(t.locked, t.liqPrice, price);
    var base := MulDiv(principal, 100, liquidationRate);
    principal + (TotalRepayValue(now, t.liqTime, t.term, t.interest, base) - base)
  }

  /** What the investor of an expired trade is paid out of the collateral: without a price, all of it. */
  function InvestorShare(env: Env, t: Trade): (v: nat)
    requires env.PriceOf(t.Market()) > 0 ==> env.RatesOf(t.collateralToken).liquidation > 0
    ensures v <= t.locked
  {
    var price := env.PriceOf(t.Market());
    if price == 0 then t.locked
    else
      var due := ExpiredRepay(t, env.now, price, env.RatesOf(t.collateralToken).liquidation);
      if due < t.locked then due else t.locked
  }

  /** The balances after an expired trade is settled: the borrower gets back what the investor is not due. */
  function ExpiredBalances(b: Balances, env: Env, t: Trade): (r: Balances)
    requires env.PriceOf(t.Market()) > 0 ==> env.RatesOf(t.collateralToken).liquidation > 0
  {
    var share := InvestorShare(env, t);
    var b0 := if share < t.locked
              then Credit(b, Account(t.collateralToken, t.borrower), t.locked - share)
              else b;
    var b1 := Debit(b0, Account(t.collateralToken, LENDING_LOCK), t.locked);
    Credit(b1, Account(t.collateralToken, t.investor), share)
  }

  /** LiquidationExpiredTrade: the investor is paid, and the borrower gets back what is left. */
  function LiquidateExpired(s: State, env: Env, key: Key): (r: Step)
  {
    if key !in s.trades then Step(s, Refused)
    else
      var t := s.trades[key];
      if env.PriceOf(t.Market()) > 0 && env.RatesOf(t.collateralToken).liquidation == 0 then Panicked
      else RemoveTrade(s.(balances := ExpiredBalances(s.balances, env, t)), key, Liquidated)
  }

  /** The borrower pays principal and interest and gets the collateral back. */
  function RepaidBalances(b: Balances, t: Trade, payment: nat): Balances {
    var b1 := Debit(b, Account(t.lendingToken, t.borrower), payment);
    var b2 := Credit(b1, Account(t.lendingToken, t.investor), payment);
    var b3 := Debit(b2, Account(t.collateralToken, LENDING_LOCK), t.locked);
    Credit(b3, Account(t.collateralToken, t.borrower), t.locked)
  }

  /** ProcessRepayLendingTrade: repays if the borrower can pay, liquidates if the term is over. */
  function RepayTrade(s: State, env: Env, key: Key): (r: Step)
  {
    if key !in s.trades then Step(s, Refused)
    else
      var t := s.trades[key];
      var payment := TotalRepayValue(env.now, t.liqTime, t.term, t.interest, t.amount);
      if BalanceOf(s.balances, Account(t.lendingToken, t.borrower)) < payment then
        if t.liqTime > env.now then Step(s, Refused)
        else if env.expiredAtPrice then LiquidateExpired(s, env, key)
        else LiquidateTrade(s, key)
      else
        RemoveTrade(s.(balances := RepaidBalances(s.balances, t, payment)), key, Repaid)
  }

  /** Re-enters a trade with a new locked amount and price; its old price entry is already gone. */
  function Reprice(s: State, key: Key, locked: nat, liqPrice: nat): (r: State)
    requires key in s.trades
  {
    var t := s.trades[key].(locked := locked, liqPrice := liqPrice);
    s.(trades := s.trades[key := t], prices := s.prices + {PriceEntry(t.Market(), liqPrice, key)})
  }

  function Transfer(b: Balances, token: Token, payer: Address, payee: Address, v: nat): Balances {
    Credit(Debit(b, Account(token, payer), v), Account(token, payee), v)
  }

  /** ProcessTopUpLendingTrade: the borrower locks quantity more, which lowers the liquidation price. */
  function TopUpTrade(s: State, key: Key, quantity: nat): (r: Step)
  {
    if key !in s.trades then Step(s, Refused)
    else
      var t := s.trades[key];
      if BalanceOf(s.balances, Account(t.collateralToken, t.borrower)) < quantity then Step(s, Refused)
      else if PriceEntry(t.Market(), t.liqPrice, key) !in s.prices then Step(s, Refused)
      else
        var s1 := s.(prices := s.prices - {PriceEntry(t.Market(), t.liqPrice, key)});
        var locked := quantity + t.locked;
        if locked == 0 then Panicked
        else
          var paid := Transfer(s.balances, t.collateralToken, t.borrower, LENDING_LOCK, quantity);
          Step(Reprice(s1.(balances := paid), key, locked, MulDiv(t.liqPrice, t.locked, locked)), Updated)
  }

  /** The liquidation price an automatic top-up aims at: 90% of the current price, rounded down. */
  function TopUpTarget(price: nat): nat { price * RATE_TOP_UP / BASE_TOP_UP }

  /** AutoTopUp: tops up to the amount that would put the liquidation price at the target. */
  function AutoTopUp(s: State, key: Key, price: nat): (r: Step)
  {
    if key !in s.trades then Step(s, Refused)
    else
      var t := s.trades[key];
      if price >= t.liqPrice then Step(s, Refused)
      else
        var target := TopUpTarget(price);
        if target == 0 then Panicked
        else
          var locked := MulDiv(t.locked, t.liqPrice, target);
          TopUpGrows(t.locked, t.liqPrice, target);
          var required := locked - t.locked;
          if BalanceOf(s.balances, Account(t.collateralToken, t.borrower)) < required then Step(s, Refused)
          else TopUpTrade(s, key, required)
  }

  lemma TopUpGrows(locked: nat, liqPrice: nat, target: nat)
    requires 0 < target <= liqPrice
    ensures MulDiv(locked, liqPrice, target) >= locked
  {
    assert locked * liqPrice >= locked * target by {
      assert locked * (liqPrice - target) >= 0;
    }
    Monotone(locked * target, locked * liqPrice, target);
    Exact(locked, target);
  }

  /** A recall credits the borrower before it debits the lock account. */
  function RecalledBalances(b: Balances, t: Trade, freed: nat): Balances {
    Debit(Credit(b, Account(t.collateralToken, t.borrower), freed), Account(t.collateralToken, LENDING_LOCK), freed)
  }

  /** ProcessRecallLendingTrade: gives back the collateral a higher liquidation price sets free. */
  function RecallTrade(s: State, key: Key, liqPrice: nat): (r: Step)
  {
    if key !in s.trades then Step(s, Refused)
    else
      var t := s.trades[key];
      if liqPrice <= t.liqPrice then Step(s, Refused)
      else
        var locked := MulDiv(t.locked, t.liqPrice, liqPrice);
        RecallShrinks(t.locked, t.liqPrice, liqPrice);
        var freed := t.locked - locked;
        if PriceEntry(t.Market(), t.liqPrice, key) !in s.prices then Step(s, Refused)
        else
          var s1 := s.(prices := s.prices - {PriceEntry(t.Market(), t.liqPrice, key)});
          Step(Reprice(s1.(balances := RecalledBalances(s.balances, t, freed)), key, locked, liqPrice), Updated)
  }

  lemma RecallShrinks(locked: nat, liqPrice: nat, raised: nat)
    requires liqPrice <= raised && raised > 0
    ensures MulDiv(locked, liqPrice, raised) <= locked
  {
    assert locked * liqPrice <= locked * raised by {
      assert locked * (raised - liqPrice) >= 0;
    }
    Monotone(locked * liqPrice, locked * raised, raised);
    Exact(locked, raised);
  }

  function SlotOf(e: TimeEntry): Slot { Slot(e.key.book, e.time) }

  /**
   The insertions that follow a settled match: a new trade enters the table and both indexes. A trade that is already
   listed at its time is counted there once more.
   */
  function OpenTrade(s: State, key: Key, t: Trade): (r: State)
  {
    var e := TimeEntry(t.liqTime, key);
    s.(trades := s.trades[key := t],
       times := s.times + {e},
       surplus := if e in s.times then s.surplus + multiset{SlotOf(e)} else s.surplus,
       prices := s.prices + {PriceEntry(t.Market(), t.liqPrice, key)})
  }

  // ----- the index invariant

  /** Every open trade is in each index at its own time and price, and nothing else is in the price index. */
  ghost predicate Covered(s: State) {
    && (forall k | k in s.trades :: TimeEntry(s.trades[k].liqTime, k) in s.times)
    && (forall k | k in s.trades :: PriceEntry(s.trades[k].Market(), s.trades[k].liqPrice, k) in s.prices)
    && (forall e | e in s.prices ::
          e.key in s.trades && e.market == s.trades[e.key].Market() && e.price == s.trades[e.key].liqPrice)
  }

  /** A time entry of an open trade at its own time. */
  predicate Current(trades: map<Key, Trade>, e: TimeEntry) {
    e.key in trades && e.time == trades[e.key].liqTime
  }

  /** The time entries that belong to no open trade. */
  ghost function Strays(s: State): set<TimeEntry> {
    set e | e in s.times && !Current(s.trades, e)
  }

  /** Both indexes hold every open trade once and nothing else. */
  ghost predicate Indexed(s: State) {
    Covered(s) && Strays(s) == {} && s.surplus == multiset{}
  }

  /** What a failed match may have left in the time index stays as it was. */
  ghost predicate SameResidue(s: State, r: State) {
    Strays(r) == Strays(s) && r.surplus == s.surplus
  }

  /** What a step may do to the trade table: close the trade, reprice it, or nothing at all. */
  ghost predicate TradeEffect(s: State, key: Key, r: Step) {
    r.Step? ==>
      && Covered(r.state) && SameResidue(s, r.state)
      && (r.outcome == Refused ==> r.state == s)
      && (r.outcome.Repaid? || r.outcome.Liquidated? ==> key in s.trades && r.state.trades == s.trades - {key})
      && (r.outcome.Updated? ==>
            && key in s.trades
            && key in r.state.trades
            && r.state.trades[key] == s.trades[key].(locked := r.state.trades[key].locked,
                                                     liqPrice := r.state.trades[key].liqPrice)
            && r.state.trades == s.trades[key := r.state.trades[key]])
  }

  lemma RemoveTradeEffect(s: State, s1: State, key: Key, outcome: Outcome)
    requires Covered(s) && key in s.trades
    requires s1 == s.(balances := s1.balances)
    ensures RemoveTrade(s1, key, outcome).Step? && RemoveTrade(s1, key, outcome).outcome == outcome
    ensures RemoveTrade(s1, key, outcome).state.balances == s1.balances
    ensures RemoveTrade(s1, key, outcome).state.trades == s.trades - {key}
    ensures Covered(RemoveTrade(s1, key, outcome).state) && SameResidue(s, RemoveTrade(s1, key, outcome).state)
  {
  }

  lemma RepriceEffect(s: State, s1: State, key: Key, locked: nat, liqPrice: nat)
    requires Covered(s) && key in s.trades
    requires s1 == s.(balances := s1.balances,
                      prices := s.prices - {PriceEntry(s.trades[key].Market(), s.trades[key].liqPrice, key)})
    ensures Covered(Reprice(s1, key, locked, liqPrice)) && SameResidue(s, Reprice(s1, key, locked, liqPrice))
  {
  }

  /** A liquidation keeps both indexes exact, and a refused one leaves the whole state as it was. */
  lemma LiquidateEffect(s: State, key: Key)
    requires Covered(s)
    ensures TradeEffect(s, key, LiquidateTrade(s, key))
    ensures key in s.trades ==> LiquidateTrade(s, key).Step? && LiquidateTrade(s, key).outcome == Liquidated
  {
    hide LiquidatedBalances;
    if key in s.trades {
      RemoveTradeEffect(s, s.(balances := LiquidatedBalances(s.balances, s.trades[key])), key, Liquidated);
    }
  }

  lemma ExpiredEffect(s: State, env: Env, key: Key)
    requires Covered(s)
    ensures TradeEffect(s, key, LiquidateExpired(s, env, key))
    ensures key in s.trades && LiquidateExpired(s, env, key).Step? ==>
      LiquidateExpired(s, env, key).outcome == Liquidated
  {
    hide ExpiredBalances;
    if key in s.trades && LiquidateExpired(s, env, key).Step? {
      var b := ExpiredBalances(s.balances, env, s.trades[key]);
      RemoveTradeEffect(s, s.(balances := b), key, Liquidated);
    }
  }

  /** A repayment is refused only without a trade, or before the term by a borrower who cannot pay. */
  lemma RepayEffect(s: State, env: Env, key: Key)
    requires Covered(s)
    ensures TradeEffect(s, key, RepayTrade(s, env, key))
    ensures RepayTrade(s, env, key).Step? ==>
      (RepayTrade(s, env, key).outcome == Refused <==>
        key !in s.trades ||
        var t := s.trades[key];
        && t.liqTime > env.now
        && BalanceOf(s.balances, Account(t.lendingToken, t.borrower)) <
           TotalRepayValue(env.now, t.liqTime, t.term, t.interest, t.amount))
  {
    hide RepaidBalances, TotalRepayValue, LiquidateTrade, LiquidateExpired;
    if key in s.trades {
      var t := s.trades[key];
      var payment := TotalRepayValue(env.now, t.liqTime, t.term, t.interest, t.amount);
      if BalanceOf(s.balances, Account(t.lendingToken, t.borrower)) < payment {
        LiquidateEffect(s, key);
        ExpiredEffect(s, env, key);
      } else {
        RemoveTradeEffect(s, s.(balances := RepaidBalances(s.balances, t, payment)), key, Repaid);
      }
    }
  }

  lemma TopUpEffect(s: State, key: Key, quantity: nat)
    requires Covered(s)
    ensures TradeEffect(s, key, TopUpTrade(s, key, quantity))
    ensures TopUpTrade(s, key, quantity).Step? ==> TopUpTrade(s, key, quantity).outcome in {Updated, Refused}
    ensures TopUpTrade(s, key, quantity).Step? ==>
      (TopUpTrade(s, key, quantity).outcome == Refused <==>
        key !in s.trades || BalanceOf(s.balances,
                                      Account(s.trades[key].collateralToken, s.trades[key].borrower)) < quantity)
  {
    hide Transfer, MulDiv;
    var r := TopUpTrade(s, key, quantity);
    if r.Step? && r.outcome != Refused {
      var t := s.trades[key];
      var b := Transfer(s.balances, t.collateralToken, t.borrower, LENDING_LOCK, quantity);
      var s1 := s.(prices := s.prices - {PriceEntry(t.Market(), t.liqPrice, key)}, balances := b);
      RepriceEffect(s, s1, key, quantity + t.locked, MulDiv(t.liqPrice, t.locked, quantity + t.locked));
    }
  }

  lemma TargetAtMost(price: nat)
    ensures TopUpTarget(price) <= price
  {
  }

  lemma RefusedEffect(s: State, key: Key)
    requires Covered(s)
    ensures TradeEffect(s, key, Step(s, Refused)) && TradeEffect(s, key, Panicked)
  {
  }

  lemma AutoTopUpEffect(s: State, key: Key, price: nat)
    requires Covered(s)
    ensures TradeEffect(s, key, AutoTopUp(s, key, price))
    ensures AutoTopUp(s, key, price).Step? ==> AutoTopUp(s, key, price).outcome in {Updated, Refused}
  {
    hide TopUpTrade, TradeEffect, MulDiv, Covered;
    TargetAtMost(price);
    RefusedEffect(s, key);
    if key in s.trades && price < s.trades[key].liqPrice && TopUpTarget(price) > 0 {
      var t := s.trades[key];
      TopUpGrows(t.locked, t.liqPrice, TopUpTarget(price));
      TopUpEffect(s, key, MulDiv(t.locked, t.liqPrice, TopUpTarget(price)) - t.locked);
    }
  }

  lemma RecallEffect(s: State, key: Key, liqPrice: nat)
    requires Covered(s)
    ensures RecallTrade(s, key, liqPrice).Step?
    ensures TradeEffect(s, key, RecallTrade(s, key, liqPrice))
    ensures RecallTrade(s, key, liqPrice).outcome == Refused <==> key !in s.trades || liqPrice <= s.trades[key].liqPrice
    ensures RecallTrade(s, key, liqPrice).outcome.Refused? || RecallTrade(s, key, liqPrice).outcome.Updated?
    ensures RecallTrade(s, key, liqPrice).outcome == Updated ==>
      RecallTrade(s, key, liqPrice).state.trades[key].liqPrice == liqPrice
  {
    hide RecalledBalances, MulDiv;
    if key in s.trades && liqPrice > s.trades[key].liqPrice {
      var t := s.trades[key];
      var locked := MulDiv(t.locked, t.liqPrice, liqPrice);
      RecallShrinks(t.locked, t.liqPrice, liqPrice);
      var b := RecalledBalances(s.balances, t, t.locked - locked);
      var s1 := s.(prices := s.prices - {PriceEntry(t.Market(), t.liqPrice, key)}, balances := b);
      RepriceEffect(s, s1, key, locked, liqPrice);
    }
  }

  /** A new trade keeps every trade indexed, and the time index exact if nothing was left of its key. */
  lemma OpenEffect(s: State, key: Key, t: Trade)
    requires Covered(s) && key !in s.trades
    ensures var r := OpenTrade(s, key, t);
      && Covered(r) && Strays(r) == Strays(s) - {TimeEntry(t.liqTime, key)}
      && (Indexed(s) ==> Indexed(r))
  {
    OpenCovers(s, key, t);
    OpenStrays(s, key, t);
    hide Covered, Strays;
  }

  lemma OpenStrays(s: State, key: Key, t: Trade)
    requires Covered(s) && key !in s.trades
    ensures Strays(OpenTrade(s, key, t)) == Strays(s) - {TimeEntry(t.liqTime, key)}
    ensures Strays(s) == {} ==> TimeEntry(t.liqTime, key) !in s.times
  {
    var r := OpenTrade(s, key, t);
    assert forall e | e in s.times && e.key != key :: Current(r.trades, e) <==> Current(s.trades, e);
    if TimeEntry(t.liqTime, key) in s.times {
      assert TimeEntry(t.liqTime, key) in Strays(s);
    }
    hide Covered;
  }

  lemma OpenCovers(s: State, key: Key, t: Trade)
    requires Covered(s) && key !in s.trades
    ensures Covered(OpenTrade(s, key, t))
  {
  }

  /** How often time slots were inserted more than removed. */
  function Insertions(s: State): nat { |s.times| + |s.surplus| }

  /** Opening a trade inserts its time once, listed or not. */
  lemma OpenCounts(s: State, key: Key, t: Trade)
    ensures Insertions(OpenTrade(s, key, t)) == Insertions(s) + 1
  {
    var e := TimeEntry(t.liqTime, key);
    if e in s.times {
      assert s.times + {e} == s.times;
    }
  }

  // ----- the collateral lock account

  ghost function LockedBy(trades: map<Key, Trade>, token: Token): set<Key> {
    set k | k in trades && trades[k].collateralToken == token
  }

  ghost function LockedAmount(trades: map<Key, Trade>, k: Key): int {
    if k in trades then trades[k].locked else 0
  }

  /** The collateral of a token that the open trades claim. */
  ghost function Claimed(trades: map<Key, Trade>, token: Token): int {
    Sum(LockedBy(trades, token), (k: Key) => LockedAmount(trades, k))
  }

  /** What the lock account holds beyond the claims of the open trades. */
  ghost function Slack(s: State, token: Token): int {
    BalanceOf(s.balances, Account(token, LENDING_LOCK)) - Claimed(s.trades, token)
  }

  /** The lock account is never a party of a trade. */
  ghost predicate OutsideParties(s: State) {
    forall k | k in s.trades :: s.trades[k].borrower != LENDING_LOCK && s.trades[k].investor != LENDING_LOCK
  }

  /** The lock account covers every open trade. */
  ghost predicate Backed(s: State) {
    forall token :: Slack(s, token) >= 0
  }

  lemma ClaimedRemove(trades: map<Key, Trade>, key: Key, token: Token)
    requires key in trades
    ensures Claimed(trades - {key}, token) ==
            Claimed(trades, token) - if trades[key].collateralToken == token then trades[key].locked else 0
  {
    var rest := trades - {key};
    var f := (k: Key) => LockedAmount(trades, k);
    var g := (k: Key) => LockedAmount(rest, k);
    assert LockedBy(rest, token) == LockedBy(trades, token) - {key};
    SumCongruence(LockedBy(rest, token), f, g);
    if trades[key].collateralToken == token {
      SumRemove(LockedBy(trades, token), f, key);
    } else {
      assert LockedBy(rest, token) == LockedBy(trades, token);
    }
  }

  lemma ClaimedInsert(trades: map<Key, Trade>, key: Key, t: Trade, token: Token)
    requires key !in trades
    ensures Claimed(trades[key := t], token) == Claimed(trades, token)
      + if t.collateralToken == token then t.locked else 0
  {
    var more := trades[key := t];
    ClaimedRemove(more, key, token);
    assert more - {key} == trades;
  }

  lemma ClaimedReplace(trades: map<Key, Trade>, key: Key, t: Trade, token: Token)
    requires key in trades && t.collateralToken == trades[key].collateralToken
    ensures Claimed(trades[key := t], token) ==
            Claimed(trades, token) + if t.collateralToken == token then t.locked - trades[key].locked else 0
  {
    ClaimedRemove(trades, key, token);
    ClaimedRemove(trades[key := t], key, token);
    assert trades[key := t] - {key} == trades - {key};
  }

  /** The lock account holds at least the collateral of any single open trade. */
  lemma BackedCovers(s: State, key: Key)
    requires Backed(s) && key in s.trades
    ensures BalanceOf(s.balances, Account(s.trades[key].collateralToken, LENDING_LOCK)) >= s.trades[key].locked
  {
    var token := s.trades[key].collateralToken;
    assert Slack(s, token) >= 0;
    SumBoundsTerm(LockedBy(s.trades, token), (k: Key) => LockedAmount(s.trades, k), key);
  }

  /** A step keeps the slack of every token, so the lock account stays outside and the cover holds. */
  ghost predicate KeepsSlack(s: State, r: Step) {
    r.Step? ==> OutsideParties(r.state) && forall token :: Slack(r.state, token) == Slack(s, token)
  }

  /** Closing a trade keeps every slack if the lock account pays out exactly what the trade locked. */
  lemma ClosedSlack(s: State, r: State, key: Key)
    requires OutsideParties(s) && key in s.trades && r.trades == s.trades - {key}
    requires LockPays(s.balances, r.balances, s.trades[key].collateralToken, s.trades[key].locked)
    ensures OutsideParties(r) && forall token :: Slack(r, token) == Slack(s, token)
  {
    forall token ensures Slack(r, token) == Slack(s, token) {
      ClaimedRemove(s.trades, key, token);
    }
  }

  /** Repricing a trade keeps every slack if the lock account moves with the locked amount. */
  lemma RepricedSlack(s: State, r: State, key: Key, t: Trade)
    requires OutsideParties(s) && key in s.trades && r.trades == s.trades[key := t]
    requires t == s.trades[key].(locked := t.locked, liqPrice := t.liqPrice)
    requires LockPays(s.balances, r.balances, t.collateralToken, s.trades[key].locked - t.locked)
    ensures OutsideParties(r) && forall token :: Slack(r, token) == Slack(s, token)
  {
    forall token ensures Slack(r, token) == Slack(s, token) {
      ClaimedReplace(s.trades, key, t, token);
    }
  }

  /** The balance of the lock account falls by paid in one token and stays in every other. */
  ghost predicate LockPays(b: Balances, after: Balances, token: Token, paid: int) {
    forall t :: BalanceOf(after, Account(t, LENDING_LOCK)) ==
      BalanceOf(b, Account(t, LENDING_LOCK)) - if t == token then paid else 0
  }

  ghost predicate LockCovers(b: Balances, t: Trade) {
    t.borrower != LENDING_LOCK && t.investor != LENDING_LOCK
      && BalanceOf(b, Account(t.collateralToken, LENDING_LOCK)) >= t.locked
  }

  lemma LiquidatedLock(b: Balances, t: Trade)
    requires LockCovers(b, t)
    ensures LockPays(b, LiquidatedBalances(b, t), t.collateralToken, t.locked)
  {
  }

  lemma ExpiredLock(b: Balances, env: Env, t: Trade)
    requires env.PriceOf(t.Market()) > 0 ==> env.RatesOf(t.collateralToken).liquidation > 0
    requires LockCovers(b, t)
    ensures LockPays(b, ExpiredBalances(b, env, t), t.collateralToken, t.locked)
  {
  }

  lemma RepaidLock(b: Balances, t: Trade, payment: nat)
    requires LockCovers(b, t)
    ensures LockPays(b, RepaidBalances(b, t, payment), t.collateralToken, t.locked)
  {
  }

  lemma TransferLock(b: Balances, t: Trade, quantity: nat)
    requires t.borrower != LENDING_LOCK
    ensures LockPays(b, Transfer(b, t.collateralToken, t.borrower, LENDING_LOCK, quantity), t.collateralToken,
                     -(quantity as int))
  {
  }

  lemma RecalledLock(b: Balances, t: Trade, freed: nat)
    requires LockCovers(b, t) && freed <= t.locked
    ensures LockPays(b, RecalledBalances(b, t, freed), t.collateralToken, freed)
  {
  }

  lemma LiquidateKeepsSlack(s: State, key: Key)
    requires Covered(s) && OutsideParties(s) && Backed(s)
    ensures KeepsSlack(s, LiquidateTrade(s, key))
  {
    hide Covered, Backed, LiquidatedBalances;
    if key in s.trades {
      LiquidateEffect(s, key);
      BackedCovers(s, key);
      LiquidatedLock(s.balances, s.trades[key]);
      ClosedSlack(s, LiquidateTrade(s, key).state, key);
    }
  }

  lemma ExpiredKeepsSlack(s: State, env: Env, key: Key)
    requires Covered(s) && OutsideParties(s) && Backed(s)
    ensures KeepsSlack(s, LiquidateExpired(s, env, key))
  {
    hide Covered, Backed, ExpiredBalances;
    var r := LiquidateExpired(s, env, key);
    if key in s.trades && r.Step? {
      ExpiredEffect(s, env, key);
      BackedCovers(s, key);
      ExpiredLock(s.balances, env, s.trades[key]);
      ClosedSlack(s, r.state, key);
    }
  }

  lemma RepayKeepsSlack(s: State, env: Env, key: Key)
    requires Covered(s) && OutsideParties(s) && Backed(s)
    ensures KeepsSlack(s, RepayTrade(s, env, key))
  {
    hide Covered, Backed, RepaidBalances, TotalRepayValue, LiquidateTrade, LiquidateExpired;
    var r := RepayTrade(s, env, key);
    RepayEffect(s, env, key);
    LiquidateKeepsSlack(s, key);
    ExpiredKeepsSlack(s, env, key);
    if key in s.trades {
      var t := s.trades[key];
      var payment := TotalRepayValue(env.now, t.liqTime, t.term, t.interest, t.amount);
      if BalanceOf(s.balances, Account(t.lendingToken, t.borrower)) >= payment {
        BackedCovers(s, key);
        RepaidLock(s.balances, t, payment);
        ClosedSlack(s, r.state, key);
      }
    }
  }

  /** A top-up adds its quantity to the locked amount, and the liquidation price does not rise. */
  lemma TopUpLocks(s: State, key: Key, quantity: nat)
    requires quantity > 0
    ensures var r := TopUpTrade(s, key, quantity);
      && r.Step?
      && (r.outcome == Updated ==>
            && key in s.trades && key in r.state.trades && r.state.trades[key].locked == s.trades[key].locked + quantity
            && r.state.trades[key].liqPrice <= s.trades[key].liqPrice)
  {
    if key in s.trades {
      var t := s.trades[key];
      assert t.liqPrice * t.locked <= t.liqPrice * (quantity + t.locked) by {
        assert t.liqPrice * quantity >= 0;
      }
      Monotone(t.liqPrice * t.locked, t.liqPrice * (quantity + t.locked), quantity + t.locked);
      Exact(t.liqPrice, quantity + t.locked);
    }
  }

  lemma TopUpKeepsSlack(s: State, key: Key, quantity: nat)
    requires Covered(s) && OutsideParties(s)
    ensures KeepsSlack(s, TopUpTrade(s, key, quantity))
  {
    hide Covered, Transfer, MulDiv;
    var r := TopUpTrade(s, key, quantity);
    TopUpEffect(s, key, quantity);
    if r.Step? && r.outcome == Updated {
      TransferLock(s.balances, s.trades[key], quantity);
      RepricedSlack(s, r.state, key, r.state.trades[key]);
    }
  }

  lemma AutoTopUpKeepsSlack(s: State, key: Key, price: nat)
    requires Covered(s) && OutsideParties(s)
    ensures KeepsSlack(s, AutoTopUp(s, key, price))
  {
    hide Covered, TopUpTrade, MulDiv;
    TargetAtMost(price);
    if key in s.trades && price < s.trades[key].liqPrice && TopUpTarget(price) > 0 {
      var t := s.trades[key];
      TopUpGrows(t.locked, t.liqPrice, TopUpTarget(price));
      TopUpKeepsSlack(s, key, MulDiv(t.locked, t.liqPrice, TopUpTarget(price)) - t.locked);
    }
  }

  lemma RecallKeepsSlack(s: State, key: Key, liqPrice: nat)
    requires Covered(s) && OutsideParties(s) && Backed(s)
    ensures KeepsSlack(s, RecallTrade(s, key, liqPrice))
  {
    hide Covered, Backed, RecalledBalances, MulDiv;
    var r := RecallTrade(s, key, liqPrice);
    RecallEffect(s, key, liqPrice);
    if r.outcome == Updated {
      var t := s.trades[key];
      RecallShrinks(t.locked, t.liqPrice, liqPrice);
      BackedCovers(s, key);
      RecalledLock(s.balances, t, t.locked - MulDiv(t.locked, t.liqPrice, liqPrice));
      RepricedSlack(s, r.state, key, r.state.trades[key]);
    }
  }
}
