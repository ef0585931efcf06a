/**
 Where an automatic top-up puts the liquidation price, with every rounding of the source
 (XDCxlending/order_processor.go, AutoTopUp and ProcessTopUpLendingTrade).
 */
module TopUpArithmetic {
  import opened Division
  import opened Ledger
  import opened LendingTrades

  /** The locked amount an automatic top-up brings a trade to. */
  function ToppedUp(locked: nat, liqPrice: nat, price: nat): (r: nat)
    requires TopUpTarget(price) > 0
  {
    MulDiv(locked, liqPrice, TopUpTarget(price))
  }

  /** The liquidation price after the top-up, computed from the new locked amount. */
  function Landed(locked: nat, liqPrice: nat, price: nat): (r: nat)
    requires TopUpTarget(price) > 0 && ToppedUp(locked, liqPrice, price) > 0
  {
    MulDiv(liqPrice, locked, ToppedUp(locked, liqPrice, price))
  }

  /** A top-up at this price is possible and takes the trade out of liquidation. */
  predicate Lands(locked: nat, liqPrice: nat, price: nat) {
    && TopUpTarget(price) > 0
    && ToppedUp(locked, liqPrice, price) > 0
    && Landed(locked, liqPrice, price) <= price
  }

  lemma TargetBounds(price: nat)
    ensures TopUpTarget(price) * 100 <= price * 90 < TopUpTarget(price) * 100 + 100
    ensures price >= 2 ==> 0 < TopUpTarget(price) < price
  {
  }

  lemma ToppedUpPositive(locked: nat, liqPrice: nat, price: nat)
    requires locked >= 1 && liqPrice > price >= 2
    ensures TopUpTarget(price) > 0 && ToppedUp(locked, liqPrice, price) >= locked
  {
    TargetBounds(price);
    TopUpGrows(locked, liqPrice, TopUpTarget(price));
  }

  /** Rounding never lets the liquidation price fall below the target of the top-up. */
  lemma LandsAboveTarget(locked: nat, liqPrice: nat, price: nat)
    requires locked >= 1 && liqPrice > price >= 2
    ensures TopUpTarget(price) > 0 && ToppedUp(locked, liqPrice, price) > 0
    ensures TopUpTarget(price) <= Landed(locked, liqPrice, price)
  {
    ToppedUpPositive(locked, liqPrice, price);
    var target, n := TopUpTarget(price), ToppedUp(locked, liqPrice, price);
    Floor(locked * liqPrice, target);
    assert target * n == n * target;
    AtLeast(liqPrice * locked, n, target);
  }

  /**
   The key bound: a trade that locks at least nine units is topped up to a liquidation price between
   the rounded 90% target and strictly below the current price.
   */
  lemma NineUnitsLand(locked: nat, liqPrice: nat, price: nat)
    requires locked >= 9 && liqPrice > price >= 2
    ensures TopUpTarget(price) > 0 && ToppedUp(locked, liqPrice, price) > 0
    ensures TopUpTarget(price) <= Landed(locked, liqPrice, price) < price
  {
    LandsAboveTarget(locked, liqPrice, price);
    TargetBounds(price);
    var target, n, value := TopUpTarget(price), ToppedUp(locked, liqPrice, price), locked * liqPrice;
    ProductAtLeast(locked, liqPrice, 9, price + 1);
    TenthOutweighsRounding(value, price, target);
    Floor(value, target);
    RoundingStaysBelow(value, target, n, price);
    assert liqPrice * locked == value;
    Below(value, n, price);
  }

  /** If the quotient n of value by target loses less than the gap between target and price, value < price * n. */
  lemma RoundingStaysBelow(value: nat, target: nat, n: nat, price: nat)
    requires 0 < target <= price
    requires value < n * target + target
    requires value * (price - target) > price * (target - 1)
    ensures value < price * n
  {
    var kept := value - target + 1;
    var vp, vt, pt, nt := value * price, value * target, price * target, n * target;
    Distribute(value, price, target);
    Distribute(price, target, 1);
    Distribute(price, value - target, 1);
    Distribute(price, value, target);
    assert price * kept == vp - pt + price;
    assert vt < price * kept;
    MulOrder(kept, nt, price);
    Associate(price, n, target);
    MulOrder(value, price * n, target);
  }

  lemma ProductAtLeast(a: nat, b: nat, c: nat, d: nat)
    requires a >= c && b >= d
    ensures a * b >= c * d
  {
    assert a * b >= c * b by { assert (a - c) * b >= 0; }
    assert c * b >= c * d by { assert c * (b - d) >= 0; }
  }

  lemma TenthOutweighsRounding(value: nat, price: nat, target: nat)
    requires price >= 2 && target * 100 <= price * 90 && value >= 9 * (price + 1) && target > 0
    ensures value * (price - target) > price * (target - 1)
  {
    var gap := price - target;
    // ten gaps are worth at least the price, and nine times the price more than ten targets
    MulOrder(price, 10 * gap, value);
    MulOrder(9 * (price + 1), value, price);
    MulOrder(10 * (target - 1), 9 * (price + 1), price);
    Associate(10, gap, value);
    Associate(10, target - 1, price);
    assert 10 * (gap * value) > 10 * ((target - 1) * price);
  }

  /** A top-up asks for nothing, and so changes nothing, exactly when one unit more would overshoot the target. */
  lemma IdleTopUp(locked: nat, liqPrice: nat, price: nat)
    requires locked >= 1 && liqPrice > price >= 2
    ensures TopUpTarget(price) > 0 && ToppedUp(locked, liqPrice, price) > 0
    ensures ToppedUp(locked, liqPrice, price) == locked <==> locked * liqPrice < (locked + 1) * TopUpTarget(price)
    ensures ToppedUp(locked, liqPrice, price) == locked ==> Landed(locked, liqPrice, price) == liqPrice
  {
    ToppedUpPositive(locked, liqPrice, price);
    Below(locked * liqPrice, TopUpTarget(price), locked + 1);
    Exact(liqPrice, locked);
  }

  /** For every locked amount below nine there is a price, one below the liquidation price, at which nothing happens. */
  function IdlePrice(locked: nat): nat
    requires 1 <= locked <= 8
  {
    [4, 6, 8, 10, 18, 28, 40, 90][locked - 1]
  }

  lemma BelowNineIdles(locked: nat)
    requires 1 <= locked <= 8
    ensures IdlePrice(locked) >= 2 && !Lands(locked, IdlePrice(locked) + 1, IdlePrice(locked))
  {
    IdleTopUp(locked, IdlePrice(locked) + 1, IdlePrice(locked));
  }

  /** Nine is exact: a locked amount lands at every price if and only if it is at least nine. */
  lemma NineIsExact(locked: nat)
    ensures (forall liqPrice: nat, price: nat | liqPrice > price >= 2 :: Lands(locked, liqPrice, price)) <==>
      locked >= 9
  {
    hide Lands;
    if locked >= 9 {
      forall liqPrice: nat, price: nat | liqPrice > price >= 2 ensures Lands(locked, liqPrice, price) {
        LandsFromNine(locked, liqPrice, price);
      }
    } else if locked >= 1 {
      BelowNineIdles(locked);
    } else {
      NothingNeverLands();
    }
  }

  lemma LandsFromNine(locked: nat, liqPrice: nat, price: nat)
    requires locked >= 9 && liqPrice > price >= 2
    ensures Lands(locked, liqPrice, price)
  {
    NineUnitsLand(locked, liqPrice, price);
  }

  lemma NothingNeverLands()
    ensures !Lands(0, 3, 2)
  {
  }

  /**
   A top-up that does not land never will: topping up again asks for nothing and lands on the same price.
   */
  lemma SecondTopUpIsIdle(locked: nat, liqPrice: nat, price: nat)
    requires locked >= 1 && liqPrice > price >= 2
    requires TopUpTarget(price) > 0 && ToppedUp(locked, liqPrice, price) > 0
    requires !Lands(locked, liqPrice, price)
    ensures var n, p := ToppedUp(locked, liqPrice, price), Landed(locked, liqPrice, price);
      ToppedUp(n, p, price) == n && Landed(n, p, price) == p
  {
    var target, n, p := TopUpTarget(price), ToppedUp(locked, liqPrice, price), Landed(locked, liqPrice, price);
    TargetBounds(price);
    assert liqPrice * locked == locked * liqPrice;
    QuotientRepeats(locked * liqPrice, target, n, p);
  }

  /**
   Dividing by the target, then by the quotient, and so on is stationary once the second quotient exceeds the target.
   */
  lemma QuotientRepeats(value: nat, target: nat, n: nat, p: nat)
    requires target > 0 && n > 0
    requires n == value / target && p == value / n && p >= target
    ensures n * p / target == n && p * n / n == p
  {
    Floor(value, target);
    Floor(value, n);
    assert n * p == p * n;
    // n * p is at most value, which is below n + 1 targets, and at least n targets
    Below(n * p, target, n + 1);
    MulOrder(target, p, n);
    assert target * n == n * target;
    AtLeast(n * p, target, n);
    Exact(p, n);
  }

  /** What AutoTopUp does to a trade in the table: it succeeds exactly when the borrower can pay. */
  lemma AutoTopUpResult(s: State, key: Key, price: nat)
    requires Covered(s) && key in s.trades
    requires s.trades[key].liqPrice > price >= 2 && s.trades[key].locked >= 1
    ensures var t, r := s.trades[key], AutoTopUp(s, key, price);
      && r.Step?
      && TopUpTarget(price) > 0 && ToppedUp(t.locked, t.liqPrice, price) >= t.locked
      && (r.outcome == Updated <==>
            BalanceOf(s.balances, Account(t.collateralToken, t.borrower)) >= ToppedUp(t.locked, t.liqPrice, price)
              - t.locked)
      && (r.outcome == Updated ==>
            && key in r.state.trades
            && r.state.trades[key].locked == ToppedUp(t.locked, t.liqPrice, price)
            && r.state.trades[key].liqPrice == Landed(t.locked, t.liqPrice, price))
  {
    var t := s.trades[key];
    ToppedUpPositive(t.locked, t.liqPrice, price);
    TopUpEffect(s, key, ToppedUp(t.locked, t.liqPrice, price) - t.locked);
  }

  /**
   The loop over trades above the current price does not end for a trade whose top-up does not land:
   after the first top-up the trade is still above the price, and every further top-up succeeds and leaves
   the table, both indexes and every balance as they are.
   */
  lemma StuckTopUp(s: State, key: Key, price: nat)
    requires Covered(s) && key in s.trades
    requires s.trades[key].liqPrice > price >= 2 && s.trades[key].locked >= 1
    requires !Lands(s.trades[key].locked, s.trades[key].liqPrice, price)
    requires AutoTopUp(s, key, price).Step? && AutoTopUp(s, key, price).outcome == Updated
    ensures var s1 := AutoTopUp(s, key, price).state; var again := AutoTopUp(s1, key, price);
      && key in s1.trades && s1.trades[key].liqPrice > price
      && again.Step? && again.outcome == Updated
      && again.state == s1.(balances := again.state.balances)
      && forall a: Account :: BalanceOf(again.state.balances, a) == BalanceOf(s1.balances, a)
  {
    var t := s.trades[key];
    AutoTopUpResult(s, key, price);
    AutoTopUpEffect(s, key, price);
    var s1 := AutoTopUp(s, key, price).state;
    SecondTopUpIsIdle(t.locked, t.liqPrice, price);
    ToppedUpPositive(t.locked, t.liqPrice, price);
    AutoTopUpResult(s1, key, price);
    var again := AutoTopUp(s1, key, price);
    assert again == TopUpTrade(s1, key, 0);
    assert again.state.trades[key] == s1.trades[key];
    assert again.state.trades == s1.trades;
    assert again.state.prices == s1.prices;
  }
}
