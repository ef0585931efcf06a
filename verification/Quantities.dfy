/**
 How much of a match both parties can pay for: GetTradeQuantity (XDCx/order_processor.go) and
 GetLendQuantity (XDCxlending/order_processor.go).
 */
module Quantities {
  import opened Division
  import opened Matching

  /** common/constants.go: XDCXBaseFee, the denominator of fee rates. */
  const BASE_FEE := 10000

  /** A traded quantity and whether the maker has to leave the book. */
  datatype Quantity = Quantity(traded: nat, rejectMaker: bool)

  /** Terms of a trade for the buyer: price per decimal units of the base token, and the fee rate. */
  datatype Terms = Terms(price: nat, decimal: nat, feeRate: nat)

  // ----- trading: what the buyer pays, and for how much the balance of a buyer lasts

  function QuoteAmount(t: Terms, n: nat): nat
    requires t.decimal > 0
  {
    MulDiv(n, t.price, t.decimal)
  }

  /** The quote amount and the fee on it, each rounded down. */
  function BuyerPays(t: Terms, n: nat): nat
    requires t.decimal > 0
  {
    QuoteAmount(t, n) + MulDiv(QuoteAmount(t, n), t.feeRate, BASE_FEE)
  }

  function BuyerLimit(t: Terms, balance: nat): (n: nat)
    requires t.price > 0
  {
    NonNegative(balance * t.decimal * BASE_FEE, BASE_FEE + t.feeRate);
    NonNegative(balance * t.decimal * BASE_FEE / (BASE_FEE + t.feeRate), t.price);
    balance * t.decimal * BASE_FEE / (BASE_FEE + t.feeRate) / t.price
  }

  /** The two divisions of BuyerLimit are one: it is the exact quotient of the unrounded cost. */
  lemma BuyerLimitIsQuotient(t: Terms, balance: nat, n: nat)
    requires t.price > 0
    ensures n <= BuyerLimit(t, balance) <==> n * t.price * (BASE_FEE + t.feeRate) <= balance * t.decimal * BASE_FEE
  {
    var funds := balance * t.decimal * BASE_FEE;
    AtLeast(funds / (BASE_FEE + t.feeRate), t.price, n);
    AtLeast(funds, BASE_FEE + t.feeRate, n * t.price);
  }

  /** Up to the limit a buyer can pay after rounding. */
  lemma BuyerAffords(t: Terms, balance: nat, n: nat)
    requires t.price > 0 && t.decimal > 0
    ensures n <= BuyerLimit(t, balance) ==> BuyerPays(t, n) <= balance
  {
    BuyerLimitIsQuotient(t, balance, n);
    if n <= BuyerLimit(t, balance) {
      RoundedCost(t, balance, n);
    }
  }

  lemma RoundedCost(t: Terms, balance: nat, n: nat)
    requires t.price > 0 && t.decimal > 0
    requires n * t.price * (BASE_FEE + t.feeRate) <= balance * t.decimal * BASE_FEE
    ensures BuyerPays(t, n) <= balance
  {
    hide BuyerLimit;
    var quote, rate := QuoteAmount(t, n), BASE_FEE + t.feeRate;
    assert quote * t.decimal <= n * t.price;
    MulOrder(quote * t.decimal, n * t.price, rate);
    assert (quote * t.decimal) * rate <= (balance * BASE_FEE) * t.decimal by {
      Associate(balance, t.decimal, BASE_FEE);
      Associate(balance, BASE_FEE, t.decimal);
    }
    assert (quote * t.decimal) * rate == (quote * rate) * t.decimal by {
      Associate(quote, t.decimal, rate);
      Associate(quote, rate, t.decimal);
    }
    MulOrder(quote * rate, balance * BASE_FEE, t.decimal);
    assert quote * rate <= balance * BASE_FEE;
    FeeFits(quote, t.feeRate, balance);
  }

  lemma FeeFits(quote: nat, feeRate: nat, balance: nat)
    requires quote * (BASE_FEE + feeRate) <= balance * BASE_FEE
    ensures quote + MulDiv(quote, feeRate, BASE_FEE) <= balance
  {
    Distribute(quote, BASE_FEE, feeRate);
    var fee := MulDiv(quote, feeRate, BASE_FEE);
    assert (quote + fee) * BASE_FEE <= balance * BASE_FEE;
    MulOrder(quote + fee, balance, BASE_FEE);
  }

  lemma BuyerPaysMore(t: Terms, m: nat, n: nat)
    requires t.decimal > 0 && m <= n
    ensures BuyerPays(t, m) <= BuyerPays(t, n)
  {
    ScaledMonotone(m, n, t.price, t.decimal);
    ScaledMonotone(QuoteAmount(t, m), QuoteAmount(t, n), t.feeRate, BASE_FEE);
  }

  lemma ScaledMonotone(m: nat, n: nat, factor: nat, d: nat)
    requires d > 0 && m <= n
    ensures MulDiv(m, factor, d) <= MulDiv(n, factor, d)
  {
    if factor > 0 {
      MulOrder(m, n, factor);
    }
    Monotone(m * factor, n * factor, d);
  }

  // ----- lending: what the borrower locks, and for how much the collateral of a borrower lasts

  datatype Collateral = Collateral(decimal: nat, depositRate: nat, price: nat)
  {
    predicate Positive() { decimal > 0 && depositRate > 0 && price > 0 }
  }

  /** The deposit rate is a percentage. */
  function BorrowerLocks(c: Collateral, n: nat): nat
    requires c.Positive()
  {
    NonNegative(n * c.decimal * c.depositRate, 100);
    NonNegative(n * c.decimal * c.depositRate / 100, c.price);
    n * c.decimal * c.depositRate / 100 / c.price
  }

  function BorrowerLimit(c: Collateral, balance: nat): nat
    requires c.Positive()
  {
    NonNegative(balance * c.price * 100, c.depositRate);
    NonNegative(balance * c.price * 100 / c.depositRate, c.decimal);
    balance * c.price * 100 / c.depositRate / c.decimal
  }

  lemma BorrowerLimitIsQuotient(c: Collateral, balance: nat, n: nat)
    requires c.Positive()
    ensures n <= BorrowerLimit(c, balance) <==> n * c.decimal * c.depositRate <= balance * c.price * 100
  {
    AtLeast(balance * c.price * 100 / c.depositRate, c.decimal, n);
    AtLeast(balance * c.price * 100, c.depositRate, n * c.decimal);
  }

  lemma BorrowerAffords(c: Collateral, balance: nat, n: nat)
    requires c.Positive()
    ensures n <= BorrowerLimit(c, balance) ==> BorrowerLocks(c, n) <= balance
  {
    BorrowerLimitIsQuotient(c, balance, n);
    var cost := n * c.decimal * c.depositRate;
    Below(cost / 100, c.price, balance + 1);
    Below(cost, 100, (balance + 1) * c.price);
    assert (balance + 1) * c.price == balance * c.price + c.price;
  }

  lemma BorrowerLocksMore(c: Collateral, m: nat, n: nat)
    requires c.Positive() && m <= n
    ensures BorrowerLocks(c, m) <= BorrowerLocks(c, n)
  {
    MulOrder(m, n, c.decimal);
    MulOrder(m * c.decimal, n * c.decimal, c.depositRate);
    Monotone(m * c.decimal * c.depositRate, n * c.decimal * c.depositRate, 100);
    Monotone(m * c.decimal * c.depositRate / 100, n * c.decimal * c.depositRate / 100, c.price);
  }

  // ----- the quantity

  /**
   The branches that GetTradeQuantity and GetLendQuantity share. One party pays a cost for q and its balance
   lasts for a limit: the taker of a bid, the maker met by an ask. The other party pays the quantity itself.
   */
  function Choose(side: Side, cost: nat, limit: nat, takerBalance: nat, makerBalance: nat, q: nat): Quantity {
    if side == Bid then
      if takerBalance >= cost && makerBalance >= q then Quantity(q, false)
      else if takerBalance < cost && makerBalance >= q then Quantity(limit, false)
      else if takerBalance >= cost && makerBalance < q then Quantity(makerBalance, true)
      else if limit <= makerBalance then Quantity(limit, false)
      else Quantity(makerBalance, true)
    else
      if takerBalance >= q && makerBalance >= cost then Quantity(q, false)
      else if takerBalance < q && makerBalance >= cost then Quantity(takerBalance, false)
      else if takerBalance >= q && makerBalance < cost then Quantity(limit, true)
      else if limit <= takerBalance then Quantity(limit, true)
      else Quantity(takerBalance, false)
  }

  /** Whose balance pays the cost. */
  function Payer(side: Side, takerBalance: nat, makerBalance: nat): nat {
    if side == Bid then takerBalance else makerBalance
  }

  function TradeQuantity(side: Side, buyer: Terms, takerBalance: nat, makerBalance: nat, q: nat): Quantity
    requires buyer.price > 0 && buyer.decimal > 0
  {
    Choose(side, BuyerPays(buyer, q), BuyerLimit(buyer, Payer(side, takerBalance, makerBalance)), takerBalance,
           makerBalance, q)
  }

  function LendQuantity(side: Side, c: Collateral, takerBalance: nat, makerBalance: nat, q: nat): Quantity
    requires c.Positive()
  {
    Choose(side, BorrowerLocks(c, q), BorrowerLimit(c, Payer(side, takerBalance, makerBalance)), takerBalance,
           makerBalance, q)
  }

  /** Which of the two amounts, the cost or the plain quantity, the taker and the maker hand over. */
  function TakerPays(side: Side, cost: nat, n: nat): nat { if side == Bid then cost else n }

  function MakerPays(side: Side, cost: nat, n: nat): nat { if side == Bid then n else cost }

  /**
   The whole quantity is traded exactly when both can pay it, so whoever is short of it is still there afterwards. A
   quantity short of the whole is the most that the parties short of it cover. A maker is rejected exactly when it is
   short and what it covers decides; if both cover the same, the one that pays the plain quantity may stay.
   */
  ghost predicate Sound(side: Side, cost: nat, limit: nat, takerBalance: nat, makerBalance: nat, q: nat, r: Quantity) {
    var takerShort := takerBalance < TakerPays(side, cost, q);
    var makerShort := makerBalance < MakerPays(side, cost, q);
    var takerMost := TakerPays(side, limit, takerBalance);
    var makerMost := MakerPays(side, limit, makerBalance);
    && r.traded <= q
    && (r.traded == q <==> !takerShort && !makerShort)
    && (r.rejectMaker <==>
        makerShort && (takerShort ==> if side == Bid then makerMost < takerMost else makerMost <= takerMost))
    && (takerShort ==> r.traded <= takerMost)
    && (makerShort ==> r.traded <= makerMost)
    && (takerShort || makerShort ==> (takerShort && r.traded == takerMost) || (makerShort && r.traded == makerMost))
  }

  lemma ChooseSound(side: Side, cost: nat, limit: nat, takerBalance: nat, makerBalance: nat, q: nat)
    requires q <= limit ==> cost <= Payer(side, takerBalance, makerBalance)
    ensures Sound(side, cost, limit, takerBalance, makerBalance, q,
                  Choose(side, cost, limit, takerBalance, makerBalance, q))
  {
  }

  /** The trading quantity is sound, and after rounding both parties can pay for what is traded. */
  lemma TradeQuantitySound(side: Side, buyer: Terms, takerBalance: nat, makerBalance: nat, q: nat)
    requires buyer.price > 0 && buyer.decimal > 0
    ensures var r := TradeQuantity(side, buyer, takerBalance, makerBalance, q);
      var limit := BuyerLimit(buyer, Payer(side, takerBalance, makerBalance));
      && Sound(side, BuyerPays(buyer, q), limit, takerBalance, makerBalance, q, r)
      && TakerPays(side, BuyerPays(buyer, r.traded), r.traded) <= takerBalance
      && MakerPays(side, BuyerPays(buyer, r.traded), r.traded) <= makerBalance
  {
    hide BuyerPays, BuyerLimit;
    var balance := Payer(side, takerBalance, makerBalance);
    var r := TradeQuantity(side, buyer, takerBalance, makerBalance, q);
    BuyerAffords(buyer, balance, q);
    ChooseSound(side, BuyerPays(buyer, q), BuyerLimit(buyer, balance), takerBalance, makerBalance, q);
    BuyerAffords(buyer, balance, r.traded);
    BuyerPaysMore(buyer, r.traded, q);
  }

  /** The same for lending: the borrower can lock what is lent and the investor can lend it. */
  lemma LendQuantitySound(side: Side, c: Collateral, takerBalance: nat, makerBalance: nat, q: nat)
    requires c.Positive()
    ensures var r := LendQuantity(side, c, takerBalance, makerBalance, q);
      var limit := BorrowerLimit(c, Payer(side, takerBalance, makerBalance));
      && Sound(side, BorrowerLocks(c, q), limit, takerBalance, makerBalance, q, r)
      && TakerPays(side, BorrowerLocks(c, r.traded), r.traded) <= takerBalance
      && MakerPays(side, BorrowerLocks(c, r.traded), r.traded) <= makerBalance
  {
    hide BorrowerLocks, BorrowerLimit;
    var balance := Payer(side, takerBalance, makerBalance);
    var r := LendQuantity(side, c, takerBalance, makerBalance, q);
    BorrowerAffords(c, balance, q);
    ChooseSound(side, BorrowerLocks(c, q), BorrowerLimit(c, balance), takerBalance, makerBalance, q);
    BorrowerAffords(c, balance, r.traded);
    BorrowerLocksMore(c, r.traded, q);
  }
}
