/**
 What a loan costs and how an expired one is shared out (XDCxlending/lendingstate/settle_balance.go:
 CalculateInterestRate, CalculateTotalRepayValue; XDCxlending/order_processor.go: LiquidationExpiredTrade).
 */
module LoanPayments {
  import opened Division
  import opened Sums
  import opened Ledger
  import opened LendingTrades

  /** Repaid at the end of the term a loan bears the interest of the whole term, repaid at once that of half of it. */
  lemma InterestOfTerm(liqTime: nat, term: nat, apr: nat)
    requires term <= liqTime && term < TWO_64
    ensures InterestRate(liqTime, liqTime, term, apr) == MulDiv(apr, term, ONE_YEAR)
    ensures InterestRate(liqTime - term, liqTime, term, apr) == MulDiv(apr, term / 2, ONE_YEAR)
  {
    assert (liqTime - (liqTime - term)) % TWO_64 == term;
    assert (term + term) / 2 == term;
  }

  lemma ScaledMore(factor: nat, m: nat, n: nat, d: nat)
    requires d > 0 && m <= n
    ensures MulDiv(factor, m, d) <= MulDiv(factor, n, d)
  {
    if factor > 0 {
      MulOrder(m, n, factor);
    }
    Monotone(factor * m, factor * n, d);
  }

  /** The rate never falls while the loan lasts. */
  lemma InterestGrows(earlier: nat, later: nat, liqTime: nat, term: nat, apr: nat)
    requires term <= liqTime && liqTime - term <= earlier <= later < liqTime - term + TWO_64
    ensures InterestRate(earlier, liqTime, term, apr) <= InterestRate(later, liqTime, term, apr)
  {
    var start := liqTime - term;
    assert (earlier - start) % TWO_64 == earlier - start && (later - start) % TWO_64 == later - start;
    Monotone(term + earlier - start, term + later - start, 2);
    ScaledMore(apr, (term + earlier - start) / 2, (term + later - start) / 2, ONE_YEAR);
  }

  /** A repayment is the amount and the interest on it, rounded down once. */
  lemma RepayIsAmountAndInterest(now: nat, liqTime: nat, term: nat, apr: nat, amount: nat)
    ensures TotalRepayValue(now, liqTime, term, apr, amount) ==
      amount + MulDiv(amount, InterestRate(now, liqTime, term, apr), BASE_INTEREST_DECIMAL)
  {
    hide InterestRate;
    var rate, d := InterestRate(now, liqTime, term, apr), BASE_INTEREST_DECIMAL;
    var q := MulDiv(amount, rate, d);
    Distribute(amount, d, rate);
    assert (amount + q) * d == amount * d + q * d;
    AtLeast(amount * (d + rate), d, amount + q);
    Below(amount * (d + rate), d, amount + q + 1);
    assert (amount + q + 1) * d == (amount + q) * d + d;
  }

  /**
   An expired trade owes the part of the collateral that was worth its liquidation price, and the interest on what that
   part stood for when it was deposited at the liquidation rate.
   */
  lemma DueIsPartAndInterest(t: Trade, now: nat, price: nat, liquidationRate: nat)
    requires price > 0 && liquidationRate > 0
    ensures var part := MulDiv(t.locked, t.liqPrice, price);
      ExpiredRepay(t, now, price, liquidationRate) ==
        part + MulDiv(MulDiv(part, 100, liquidationRate), InterestRate(now, t.liqTime, t.term, t.interest),
                      BASE_INTEREST_DECIMAL)
  {
    hide InterestRate, MulDiv, TotalRepayValue;
    var part := MulDiv(t.locked, t.liqPrice, price);
    RepayIsAmountAndInterest(now, t.liqTime, t.term, t.interest, MulDiv(part, 100, liquidationRate));
  }

  /**
   An expired trade whose liquidation price has been reached, or that has no price, leaves nothing for the borrower.
   */
  lemma ReachedPriceTakesAll(env: Env, t: Trade)
    requires env.PriceOf(t.Market()) > 0 ==> env.RatesOf(t.collateralToken).liquidation > 0
    ensures env.PriceOf(t.Market()) <= t.liqPrice ==> InvestorShare(env, t) == t.locked
  {
    hide TotalRepayValue;
    var price := env.PriceOf(t.Market());
    if 0 < price <= t.liqPrice {
      if t.locked > 0 {
        MulOrder(price, t.liqPrice, t.locked);
      }
      AtLeast(t.locked * t.liqPrice, price, t.locked);
    }
  }

  /**
   Within its term a loan costs at least the interest of half of the term and at most that of the whole term, however
   early it is repaid.
   */
  lemma RepaymentBounds(t: Trade, now: nat)
    requires t.term <= t.liqTime && t.term < TWO_64 && t.liqTime - t.term <= now <= t.liqTime
    ensures var cost := TotalRepayValue(now, t.liqTime, t.term, t.interest, t.amount) - t.amount;
      MulDiv(t.amount, MulDiv(t.interest, t.term / 2, ONE_YEAR), BASE_INTEREST_DECIMAL) <= cost
        <= MulDiv(t.amount, MulDiv(t.interest, t.term, ONE_YEAR), BASE_INTEREST_DECIMAL)
  {
    hide InterestRate, TotalRepayValue, MulDiv;
    var start := t.liqTime - t.term;
    RepayIsAmountAndInterest(now, t.liqTime, t.term, t.interest, t.amount);
    InterestOfTerm(t.liqTime, t.term, t.interest);
    InterestGrows(start, now, t.liqTime, t.term, t.interest);
    InterestGrows(now, t.liqTime, t.liqTime, t.term, t.interest);
    var first, rate, last := InterestRate(start, t.liqTime, t.term, t.interest),
        InterestRate(now, t.liqTime, t.term, t.interest),
      InterestRate(t.liqTime, t.liqTime, t.term, t.interest);
    ScaledMore(t.amount, first, rate, BASE_INTEREST_DECIMAL);
    ScaledMore(t.amount, rate, last, BASE_INTEREST_DECIMAL);
  }

  /**
   At a price above the liquidation price the investor is due the part and its interest, and never more than there is.
   */
  lemma ShareOfExpired(env: Env, t: Trade)
    requires env.PriceOf(t.Market()) > 0 ==> env.RatesOf(t.collateralToken).liquidation > 0
    ensures env.PriceOf(t.Market()) <= t.liqPrice ==> InvestorShare(env, t) == t.locked
    ensures env.PriceOf(t.Market()) > t.liqPrice ==>
      var part := MulDiv(t.locked, t.liqPrice, env.PriceOf(t.Market()));
      var interest := MulDiv(MulDiv(part, 100, env.RatesOf(t.collateralToken).liquidation),
                             InterestRate(env.now, t.liqTime, t.term, t.interest), BASE_INTEREST_DECIMAL);
      InvestorShare(env, t) == if part + interest < t.locked then part + interest else t.locked
  {
    ReachedPriceTakesAll(env, t);
    if env.PriceOf(t.Market()) > t.liqPrice {
      DueIsPartAndInterest(t, env.now, env.PriceOf(t.Market()), env.RatesOf(t.collateralToken).liquidation);
    }
    hide InterestRate, MulDiv, ExpiredRepay;
  }

  // ----- who is paid

  /**
   What closing a trade means for one account: the borrower hands over payment in the lending token, the lock
   account releases the collateral, of which the investor gets share and the borrower the rest.
   */
  function Flow(t: Trade, payment: nat, share: nat, a: Account): int {
    (if a == Account(t.lendingToken, t.investor) then payment else 0)
    - (if a == Account(t.lendingToken, t.borrower) then payment else 0)
    + (if a == Account(t.collateralToken, t.investor) then share else 0)
    + (if a == Account(t.collateralToken, t.borrower) then t.locked - share else 0)
    - (if a == Account(t.collateralToken, LENDING_LOCK) then t.locked else 0)
  }

  /** Every account moves by its flow, and no supply moves. */
  ghost predicate PaysOut(b: Balances, after: Balances, t: Trade, payment: nat, share: nat) {
    && (forall a: Account :: BalanceOf(after, a) == BalanceOf(b, a) + Flow(t, payment, share, a))
    && forall token: Token :: Supply(after, token) == Supply(b, token)
  }

  lemma RepaidPays(b: Balances, t: Trade, payment: nat)
    requires LockCovers(b, t) && BalanceOf(b, Account(t.lendingToken, t.borrower)) >= payment
    ensures PaysOut(b, RepaidBalances(b, t, payment), t, payment, 0)
  {
    var b1 := Debit(b, Account(t.lendingToken, t.borrower), payment);
    var b2 := Credit(b1, Account(t.lendingToken, t.investor), payment);
    var b3 := Debit(b2, Account(t.collateralToken, LENDING_LOCK), t.locked);
    hide Supply, Debit, Credit;
    forall token ensures Supply(RepaidBalances(b, t, payment), token) == Supply(b, token) {
      SupplyDebit(b, Account(t.lendingToken, t.borrower), payment, token);
      SupplyCredit(b1, Account(t.lendingToken, t.investor), payment, token);
      SupplyDebit(b2, Account(t.collateralToken, LENDING_LOCK), t.locked, token);
      SupplyCredit(b3, Account(t.collateralToken, t.borrower), t.locked, token);
    }
  }

  lemma LiquidatedPays(b: Balances, t: Trade)
    requires LockCovers(b, t)
    ensures PaysOut(b, LiquidatedBalances(b, t), t, 0, t.locked)
  {
    var b1 := Debit(b, Account(t.collateralToken, LENDING_LOCK), t.locked);
    hide Supply, Debit, Credit;
    forall token ensures Supply(LiquidatedBalances(b, t), token) == Supply(b, token) {
      SupplyDebit(b, Account(t.collateralToken, LENDING_LOCK), t.locked, token);
      SupplyCredit(b1, Account(t.collateralToken, t.investor), t.locked, token);
    }
  }

  lemma ExpiredPays(b: Balances, env: Env, t: Trade)
    requires env.PriceOf(t.Market()) > 0 ==> env.RatesOf(t.collateralToken).liquidation > 0
    requires LockCovers(b, t)
    ensures PaysOut(b, ExpiredBalances(b, env, t), t, 0, InvestorShare(env, t))
  {
    hide Supply, Debit, Credit, InvestorShare;
    var share := InvestorShare(env, t);
    var b0 := if share < t.locked then Credit(b, Account(t.collateralToken, t.borrower), t.locked - share) else b;
    var b1 := Debit(b0, Account(t.collateralToken, LENDING_LOCK), t.locked);
    forall token ensures Supply(ExpiredBalances(b, env, t), token) == Supply(b, token) {
      SupplyCredit(b, Account(t.collateralToken, t.borrower), t.locked - share, token);
      SupplyDebit(b0, Account(t.collateralToken, LENDING_LOCK), t.locked, token);
      SupplyCredit(b1, Account(t.collateralToken, t.investor), share, token);
    }
  }

  /** What a repayment is worth, and what the investor keeps of the collateral of a liquidated trade. */
  ghost function Payment(env: Env, t: Trade): nat {
    t.amount + MulDiv(t.amount, InterestRate(env.now, t.liqTime, t.term, t.interest), BASE_INTEREST_DECIMAL)
  }

  ghost function Share(env: Env, t: Trade): nat {
    if env.expiredAtPrice && (env.PriceOf(t.Market()) > 0 ==> env.RatesOf(t.collateralToken).liquidation > 0)
    then InvestorShare(env, t) else t.locked
  }

  /**
   A due trade is repaid with interest if its borrower can pay; otherwise it is liquidated once its term is over and
   refused before. Every account moves by exactly what that means.
   */
  lemma RepayPays(s: State, env: Env, key: Key)
    requires Covered(s) && OutsideParties(s) && Backed(s) && key in s.trades
    ensures var t, r := s.trades[key], RepayTrade(s, env, key);
      var able := BalanceOf(s.balances, Account(t.lendingToken, t.borrower)) >= Payment(env, t);
      r.Step? ==>
        && (r.outcome == Repaid <==> able) && (r.outcome == Refused <==> !able && t.liqTime > env.now)
        && (r.outcome == Liquidated <==> !able && t.liqTime <= env.now)
        && (r.outcome == Repaid ==> PaysOut(s.balances, r.state.balances, t, Payment(env, t), 0))
        && (r.outcome == Liquidated ==> PaysOut(s.balances, r.state.balances, t, 0, Share(env, t)))
        && (r.outcome == Refused ==> r.state == s)
  {
    hide InterestRate, TotalRepayValue, MulDiv, RepaidBalances, LiquidatedBalances, ExpiredBalances, InvestorShare,
         PaysOut, Covered, Backed, RemoveTrade;
    var t := s.trades[key];
    RepayIsAmountAndInterest(env.now, t.liqTime, t.term, t.interest, t.amount);
    BackedCovers(s, key);
    if BalanceOf(s.balances, Account(t.lendingToken, t.borrower)) >= Payment(env, t) {
      RepaidPays(s.balances, t, Payment(env, t));
      Removed(s, RepaidBalances(s.balances, t, Payment(env, t)), key, Repaid);
    } else if env.expiredAtPrice {
      if env.PriceOf(t.Market()) > 0 ==> env.RatesOf(t.collateralToken).liquidation > 0 {
        ExpiredPays(s.balances, env, t);
        Removed(s, ExpiredBalances(s.balances, env, t), key, Liquidated);
      }
    } else {
      LiquidatedPays(s.balances, t);
      Removed(s, LiquidatedBalances(s.balances, t), key, Liquidated);
    }
  }

  lemma Removed(s: State, b: Balances, key: Key, outcome: Outcome)
    requires Covered(s) && key in s.trades
    ensures var r := RemoveTrade(s.(balances := b), key, outcome);
      r.Step? && r.outcome == outcome && r.state.balances == b
  {
  }

  /** What a share of the collateral comes to. */
  ghost function DueAt(env: Env, t: Trade): nat
    requires env.PriceOf(t.Market()) > 0 && env.RatesOf(t.collateralToken).liquidation > 0
  {
    var part := MulDiv(t.locked, t.liqPrice, env.PriceOf(t.Market()));
    part + MulDiv(MulDiv(part, 100, env.RatesOf(t.collateralToken).liquidation),
                  InterestRate(env.now, t.liqTime, t.term, t.interest), BASE_INTEREST_DECIMAL)
  }

  /**
   What investor and borrower end up with. Repaid within its term, a loan costs between the interest of half of the
   term and that of the whole term. Liquidated, it leaves the borrower nothing at or below the liquidation price, and
   above it what the part worth that price and its interest leave of the collateral.
   */
  lemma RepayWorth(s: State, env: Env, key: Key)
    requires Covered(s) && OutsideParties(s) && Backed(s) && key in s.trades && RepayTrade(s, env, key).Step?
    ensures var t, r := s.trades[key], RepayTrade(s, env, key);
      && (r.outcome == Repaid && t.term <= t.liqTime && t.term < TWO_64
          && t.liqTime - t.term <= env.now <= t.liqTime ==>
            && PaysOut(s.balances, r.state.balances, t, Payment(env, t), 0)
            && MulDiv(t.amount, MulDiv(t.interest, t.term / 2, ONE_YEAR), BASE_INTEREST_DECIMAL) <= Payment(env, t)
              - t.amount
                 <= MulDiv(t.amount, MulDiv(t.interest, t.term, ONE_YEAR), BASE_INTEREST_DECIMAL))
      && (r.outcome == Liquidated ==>
            && PaysOut(s.balances, r.state.balances, t, 0, Share(env, t))
            && (!env.expiredAtPrice || env.PriceOf(t.Market()) <= t.liqPrice ==> Share(env, t) == t.locked)
            && (env.expiredAtPrice && env.PriceOf(t.Market()) > t.liqPrice
                && env.RatesOf(t.collateralToken).liquidation > 0 ==>
                  Share(env, t) == if DueAt(env, t) < t.locked then DueAt(env, t) else t.locked))
  {
    hide RepayTrade, PaysOut, InterestRate, MulDiv, InvestorShare, TotalRepayValue, Covered, OutsideParties, Backed;
    var t, r := s.trades[key], RepayTrade(s, env, key);
    RepayPays(s, env, key);
    RepayIsAmountAndInterest(env.now, t.liqTime, t.term, t.interest, t.amount);
    if t.term <= t.liqTime && t.term < TWO_64 && t.liqTime - t.term <= env.now <= t.liqTime {
      RepaymentBounds(t, env.now);
    }
    if env.PriceOf(t.Market()) > 0 ==> env.RatesOf(t.collateralToken).liquidation > 0 {
      ShareOfExpired(env, t);
    }
  }

  // ----- nobody else is touched

  /** No supply moves, and of the accounts outside the lock only those of the trade's parties do. */
  ghost predicate Within(b: Balances, after: Balances, t: Trade) {
    && (forall a: Account | a.owner != LENDING_LOCK && a.owner != t.borrower && a.owner != t.investor ::
        BalanceOf(after, a) == BalanceOf(b, a))
    && forall token: Token :: Supply(after, token) == Supply(b, token)
  }

  lemma PaidWithin(b: Balances, after: Balances, t: Trade, payment: nat, share: nat)
    requires PaysOut(b, after, t, payment, share)
    ensures Within(b, after, t)
  {
    hide Supply;
  }

  lemma TransferWithin(b: Balances, t: Trade, quantity: nat)
    requires BalanceOf(b, Account(t.collateralToken, t.borrower)) >= quantity
    ensures Within(b, Transfer(b, t.collateralToken, t.borrower, LENDING_LOCK, quantity), t)
  {
    var b1 := Debit(b, Account(t.collateralToken, t.borrower), quantity);
    hide Supply, Debit, Credit;
    forall token
      ensures Supply(Transfer(b, t.collateralToken, t.borrower, LENDING_LOCK, quantity), token) == Supply(b, token)
    {
      SupplyDebit(b, Account(t.collateralToken, t.borrower), quantity, token);
      SupplyCredit(b1, Account(t.collateralToken, LENDING_LOCK), quantity, token);
    }
  }

  lemma RecalledWithin(b: Balances, t: Trade, freed: nat)
    requires LockCovers(b, t) && freed <= t.locked
    ensures Within(b, RecalledBalances(b, t, freed), t)
  {
    var b1 := Credit(b, Account(t.collateralToken, t.borrower), freed);
    hide Supply, Debit, Credit;
    forall token ensures Supply(RecalledBalances(b, t, freed), token) == Supply(b, token) {
      SupplyCredit(b, Account(t.collateralToken, t.borrower), freed, token);
      SupplyDebit(b1, Account(t.collateralToken, LENDING_LOCK), freed, token);
    }
  }

  ghost predicate StepWithin(s: State, key: Key, r: Step) {
    r.Step? ==> if key in s.trades then Within(s.balances, r.state.balances, s.trades[key]) else r.state == s
  }

  lemma LiquidateWithin(s: State, key: Key)
    requires OutsideParties(s) && Backed(s)
    ensures StepWithin(s, key, LiquidateTrade(s, key))
  {
    hide Backed, LiquidatedBalances, Within, PaysOut;
    if key in s.trades {
      BackedCovers(s, key);
      LiquidatedPays(s.balances, s.trades[key]);
      PaidWithin(s.balances, LiquidatedBalances(s.balances, s.trades[key]), s.trades[key], 0, s.trades[key].locked);
    }
  }

  lemma ExpiredWithin(s: State, env: Env, key: Key)
    requires OutsideParties(s) && Backed(s)
    ensures StepWithin(s, key, LiquidateExpired(s, env, key))
  {
    hide Backed, ExpiredBalances, InvestorShare, Within, PaysOut;
    if key in s.trades {
      var t := s.trades[key];
      if env.PriceOf(t.Market()) > 0 ==> env.RatesOf(t.collateralToken).liquidation > 0 {
        BackedCovers(s, key);
        ExpiredPays(s.balances, env, t);
        PaidWithin(s.balances, ExpiredBalances(s.balances, env, t), t, 0, InvestorShare(env, t));
      }
    }
  }

  lemma RepayWithin(s: State, env: Env, key: Key)
    requires Covered(s) && OutsideParties(s) && Backed(s)
    ensures StepWithin(s, key, RepayTrade(s, env, key))
  {
    if key in s.trades {
      RepayPays(s, env, key);
      var t, r := s.trades[key], RepayTrade(s, env, key);
      hide RepayTrade, Supply, Payment, Share, PaysOut, Within, Backed, OutsideParties, Covered;
      WithinSame(s.balances, t);
      if r.Step? && r.outcome == Repaid {
        PaidWithin(s.balances, r.state.balances, t, Payment(env, t), 0);
      } else if r.Step? && r.outcome == Liquidated {
        PaidWithin(s.balances, r.state.balances, t, 0, Share(env, t));
      }
    }
  }

  lemma WithinSame(b: Balances, t: Trade)
    ensures Within(b, b, t)
  {
  }

  lemma TopUpWithin(s: State, key: Key, quantity: nat)
    ensures StepWithin(s, key, TopUpTrade(s, key, quantity))
  {
    hide Transfer, MulDiv, Within;
    if key in s.trades {
      WithinSame(s.balances, s.trades[key]);
      if BalanceOf(s.balances, Account(s.trades[key].collateralToken, s.trades[key].borrower)) >= quantity {
        TransferWithin(s.balances, s.trades[key], quantity);
      }
    }
  }

  lemma AutoTopUpWithin(s: State, key: Key, price: nat)
    ensures StepWithin(s, key, AutoTopUp(s, key, price))
  {
    hide TopUpTrade, MulDiv, Within;
    if key in s.trades {
      var t := s.trades[key];
      WithinSame(s.balances, t);
      if price < t.liqPrice && TopUpTarget(price) > 0 {
        TopUpGrows(t.locked, t.liqPrice, TopUpTarget(price));
        TopUpWithin(s, key, MulDiv(t.locked, t.liqPrice, TopUpTarget(price)) - t.locked);
      }
    }
  }

  lemma RecallWithin(s: State, key: Key, liqPrice: nat)
    requires OutsideParties(s) && Backed(s)
    ensures StepWithin(s, key, RecallTrade(s, key, liqPrice))
  {
    hide Backed, RecalledBalances, MulDiv, Within;
    if key in s.trades {
      var t := s.trades[key];
      WithinSame(s.balances, t);
      if liqPrice > t.liqPrice {
        BackedCovers(s, key);
        RecallShrinks(t.locked, t.liqPrice, liqPrice);
        RecalledWithin(s.balances, t, t.locked - MulDiv(t.locked, t.liqPrice, liqPrice));
      }
    }
  }
}
