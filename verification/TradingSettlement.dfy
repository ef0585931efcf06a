/**
 The settlement of a trade (XDCx/order_processor.go: getTradeQuantity, DoSettleBalance;
 XDCx/tradingstate/settle_balance.go: GetSettleBalance).
 */
module TradingSettlement {
  import opened Options
  import opened Sums
  import opened Division
  import opened Ledger
  import opened Matching
  import opened OrderBook
  import opened Quantities
  import opened BalanceOverlay
  import opened Relayers

  /** common/constants.go: what a relayer pays for a match. */
  const RELAYER_FEE := 1_000_000_000_000_000
  /** The fee rate that the smallest trade is measured with. */
  const DEFAULT_FEE_RATE := 10

  /** Who placed an order, through which relayer, for which pair, with its hash and extra data. */
  datatype Party = Party(user: Address, exchange: Address, base: Token, quote: Token, hash: nat, extra: string)

  /** What the engine reads and never changes while it matches; a token without decimals or price has zero. */
  datatype Env = Env(
    tokens: set<Token>,
    decimals: map<Token, nat>,
    owners: map<Address, Address>,
    feeRates: map<Address, nat>,
    contract: Address,
    masternodeOwner: Address)
  {
    function Decimal(t: Token): nat { if t in decimals then decimals[t] else 0 }

    function OwnerOf(exchange: Address): Address { if exchange in owners then owners[exchange] else 0 }

    function FeeRate(exchange: Address): nat { if exchange in feeRates then feeRates[exchange] else 0 }
  }

  datatype Pair = Pair(base: Token, quote: Token)

  /** Balances, the deposit of every relayer in the registration contract, and the last price of every pair. */
  datatype Funds = Funds(balances: Balances, deposits: map<Address, nat>, lastPrices: map<Pair, nat>)

  const BASE_PRICE := 1_000_000_000_000_000_000

  /**
   What the quote token is worth: its last price in the native coin, or the inverse of the coin's last price in it.
   */
  function QuotePrice(env: Env, s: Funds, quote: Token): nat {
    var direct, inverse := ValueOf(s.lastPrices, Pair(quote, XDC_NATIVE)),
        ValueOf(s.lastPrices, Pair(XDC_NATIVE, quote));
    if quote == XDC_NATIVE then BASE_PRICE
    else if direct > 0 then direct
    else if inverse > 0 then MulDiv(BASE_PRICE, env.Decimal(quote), inverse)
    else 0
  }

  // ----- the amounts

  datatype Leg = Leg(fee: nat, inToken: Token, inTotal: nat, outToken: Token, outTotal: nat)

  datatype Legs = Legs(taker: Leg, maker: Leg)

  /** GetSettleBalance; no result is a trade too small. The fees are taken in the quote token. */
  function SettleBalance(
      env: Env, quotePrice: nat, side: Side, base: Token, quote: Token, price: nat, takerRate: nat, makerRate: nat,
      q: nat): Option<Legs>
    requires env.Decimal(base) > 0 && env.Decimal(quote) > 0
  {
    var amount := MulDiv(q, price, env.Decimal(base));
    var makerFee := MulDiv(amount, makerRate, BASE_FEE);
    var takerFee := MulDiv(amount, takerRate, BASE_FEE);
    var least := MulDiv(amount, DEFAULT_FEE_RATE, BASE_FEE);
    if amount <= (if side == Bid then makerFee else takerFee) || amount <= least then None
    else if Unpaid(quote, quotePrice, env.Decimal(quote), makerFee, least, RELAYER_FEE) || Unpaid(quote, quotePrice,
        env.Decimal(quote), takerFee, least, RELAYER_FEE) then None
    else if side == Bid then
      Some(Legs(Leg(takerFee, base, q, quote, amount + takerFee), Leg(makerFee, quote, amount - makerFee, base, q)))
    else
      Some(Legs(Leg(takerFee, quote, amount - takerFee, base, q), Leg(makerFee, base, q, quote, amount + makerFee)))
  }

  function Entries(env: Env, taker: Party, maker: Party, legs: Legs): seq<Entry> {
    [ Entry(Account(legs.taker.inToken, taker.user), true, legs.taker.inTotal),
      Entry(Account(legs.taker.outToken, taker.user), false, legs.taker.outTotal),
      Entry(Account(legs.maker.inToken, maker.user), true, legs.maker.inTotal),
      Entry(Account(legs.maker.outToken, maker.user), false, legs.maker.outTotal),
      Entry(Account(maker.quote, env.OwnerOf(taker.exchange)), true, legs.taker.fee),
      Entry(Account(maker.quote, env.OwnerOf(maker.exchange)), true, legs.maker.fee) ]
  }

  // ----- the settlement

  /** Both relayers pay; one that serves both sides pays twice. */
  function PayRelayers(deposits: map<Address, nat>, taker: Address, maker: Address): Option<map<Address, nat>> {
    if ValueOf(deposits, taker) < RELAYER_FEE then None
    else
      var after := deposits[taker := ValueOf(deposits, taker) - RELAYER_FEE];
      if ValueOf(after, maker) < RELAYER_FEE then None
      else Some(after[maker := ValueOf(after, maker) - RELAYER_FEE])
  }

  /**
   DoSettleBalance: the entries are checked against the overlay, the relayers pay the masternode's owner, and the
   overlay is written back. The registration contract holds the deposits, so it can pay what they pay.
   */
  function Settle(env: Env, s: Funds, taker: Party, maker: Party, legs: Legs): Option<Funds> {
    if env.OwnerOf(taker.exchange) == 0 || env.OwnerOf(maker.exchange) == 0 then None
    else
      match (CheckAll(s.balances, env.tokens, Entries(env, taker, maker, legs)),
             PayRelayers(s.deposits, taker.exchange, maker.exchange),
             Paid(s.balances, env.contract, env.masternodeOwner, 2 * RELAYER_FEE))
      case (Some(overlay), Some(deposits), Some(paid)) => Some(s.(balances := paid + overlay, deposits := deposits))
      case _ => None
  }

  /** The quantity that taker and maker can pay. */
  function Tradable(env: Env, s: Funds, taker: Order<Party>, maker: Order<Party>, q: nat): Quantity
    requires maker.price > 0 && env.Decimal(maker.data.base) > 0
  {
    var quote, base := maker.data.quote, maker.data.base;
    var buyer := if taker.side == Bid then taker.data else maker.data;
    var terms := Terms(maker.price, env.Decimal(base), env.FeeRate(buyer.exchange));
    TradeQuantity(taker.side, terms,
                  TokenBalance(env.tokens, s.balances, taker.data.user, if taker.side == Bid then quote else base),
                  TokenBalance(env.tokens, s.balances, maker.data.user, if taker.side == Bid then base else quote), q)
  }

  /** getTradeQuantity. A resting maker has a price. */
  function SettleTrade(env: Env, s: Funds, taker: Order<Party>, maker: Order<Party>, q: nat): Settlement<Funds> {
    var base, quote := maker.data.base, maker.data.quote;
    if env.Decimal(base) == 0 || env.Decimal(quote) == 0 || maker.price == 0 then Failure
    else if taker.data.exchange == maker.data.exchange && !CanPay(s.deposits, taker.data.exchange, 2 * RELAYER_FEE)
         then Settled(s, 0, false)
    else if taker.data.exchange != maker.data.exchange && !CanPay(s.deposits, taker.data.exchange, RELAYER_FEE)
         then Settled(s, 0, false)
    else if taker.data.exchange != maker.data.exchange && !CanPay(s.deposits, maker.data.exchange, RELAYER_FEE)
         then Settled(s, 0, true)
    else
      var r := Tradable(env, s, taker, maker, q);
      if r.traded == 0 then Settled(s, 0, r.rejectMaker)
      else
        var takerRate, makerRate := env.FeeRate(taker.data.exchange), env.FeeRate(maker.data.exchange);
        match SettleBalance(env, QuotePrice(env, s, maker.data.quote), taker.side, base, quote, maker.price, takerRate,
                            makerRate, r.traded)
        case None => TooSmall(r.traded, r.rejectMaker)
        case Some(legs) =>
          match Settle(env, s, taker.data, maker.data, legs)
          case None => Failure
          case Some(after) =>
            Settled(after.(lastPrices := after.lastPrices[Pair(base, quote) := maker.price]), r.traded, r.rejectMaker)
  }

  function TradeSettler(env: Env): Settler<Funds, Party> {
    (s: Funds, taker: Order<Party>, maker: Order<Party>, q: nat) => SettleTrade(env, s, taker, maker, q)
  }

  /** What the matching loops need of a settlement. */
  lemma TradesHonestly(env: Env)
    ensures Honest(TradeSettler(env))
  {
    var settle := TradeSettler(env);
    forall s: Funds, taker: Order<Party>, maker: Order<Party>, q: nat
      ensures HonestAt(settle, s, taker, maker, q)
    {
      TradeHonestly(env, s, taker, maker, q);
    }
  }

  lemma TradeHonestly(env: Env, s: Funds, taker: Order<Party>, maker: Order<Party>, q: nat)
    ensures var r := SettleTrade(env, s, taker, maker, q);
      q > 0 && !r.Failure? ==> r.traded <= q && (r.rejectMaker ==> r.traded < q)
  {
    hide SettleBalance, Settle, BuyerPays, BuyerLimit, Choose;
    if maker.price > 0 && env.Decimal(maker.data.base) > 0 {
      var buyer := if taker.side == Bid then taker.data else maker.data;
      TradeQuantitySound(taker.side, Terms(maker.price, env.Decimal(maker.data.base), env.FeeRate(buyer.exchange)),
                         TokenBalance(env.tokens, s.balances, taker.data.user,
                                      if taker.side == Bid then maker.data.quote else maker.data.base),
                         TokenBalance(env.tokens, s.balances, maker.data.user,
                                      if taker.side == Bid then maker.data.base else maker.data.quote), q);
    }
  }

  // ----- conservation

  lemma NetOfSix(a: Entry, b: Entry, c: Entry, d: Entry, e: Entry, f: Entry, t: Token)
    ensures Net([a, b, c, d, e, f], t) == Signed(a, t) + Signed(b, t) + Signed(c, t) + Signed(d, t) + Signed(e, t)
      + Signed(f, t)
    ensures Written([a, b, c, d, e, f]) == {a.account, b.account, c.account, d.account, e.account, f.account}
  {
    hide Net, Written;
    NetAppend([], a, t);
    NetAppend([a], b, t);
    NetAppend([a, b], c, t);
    NetAppend([a, b, c], d, t);
    NetAppend([a, b, c, d], e, t);
    NetAppend([a, b, c, d, e], f, t);
    assert [] + [a] == [a] && [a] + [b] == [a, b] && [a, b] + [c] == [a, b, c] && [a, b, c] + [d] == [a, b, c, d];
    assert [a, b, c, d] + [e] == [a, b, c, d, e] && [a, b, c, d, e] + [f] == [a, b, c, d, e, f];
    NetNone(t);
  }

  /** What one side hands over the other sides receive, whoever the parties are. */
  lemma TradeIsBalanced(
      env: Env, quotePrice: nat, side: Side, taker: Party, maker: Party, price: nat, takerRate: nat, makerRate: nat,
      q: nat, t: Token)
    requires env.Decimal(maker.base) > 0 && env.Decimal(maker.quote) > 0
    ensures var legs := SettleBalance(env, quotePrice, side, maker.base, maker.quote, price, takerRate, makerRate, q);
      legs.Some? ==> Net(Entries(env, taker, maker, legs.value), t) == 0
  {
    hide Unpaid, MulDiv;
    var legs := SettleBalance(env, quotePrice, side, maker.base, maker.quote, price, takerRate, makerRate, q);
    if legs.Some? {
      var es := Entries(env, taker, maker, legs.value);
      NetOfSix(es[0], es[1], es[2], es[3], es[4], es[5], t);
    }
  }

  /**
   The payments of the settlement are those that the quantity was chosen by. The seller receives the quote amount less
   its own fee, the buyer receives the quantity, and the relayer of each side earns that side's rate on the amount.
   */
  lemma SettlementPays(
      env: Env, quotePrice: nat, side: Side, base: Token, quote: Token, price: nat, takerRate: nat, makerRate: nat,
      q: nat)
    requires env.Decimal(base) > 0 && env.Decimal(quote) > 0
    ensures var legs := SettleBalance(env, quotePrice, side, base, quote, price, takerRate, makerRate, q);
      var cost := BuyerPays(Terms(price, env.Decimal(base), if side == Bid then takerRate else makerRate), q);
      var amount := MulDiv(q, price, env.Decimal(base));
      legs.Some? ==>
        && legs.value.taker.outTotal == TakerPays(side, cost, q)
        && legs.value.maker.outTotal == MakerPays(side, cost, q)
        && legs.value.taker.outToken == legs.value.maker.inToken == (if side == Bid then quote else base)
        && legs.value.maker.outToken == legs.value.taker.inToken == (if side == Bid then base else quote)
        && legs.value.taker.fee == MulDiv(amount, takerRate, BASE_FEE)
        && legs.value.maker.fee == MulDiv(amount, makerRate, BASE_FEE)
        && legs.value.taker.inTotal == (if side == Bid then q else amount - legs.value.taker.fee)
        && legs.value.maker.inTotal == (if side == Bid then amount - legs.value.maker.fee else q)
  {
    hide Unpaid, MulDiv;
  }

  /**
   No trade is for nothing: both sides receive something, and a fee that is worth anything covers what its relayer
   pays.
   */
  lemma SettlementWorthwhile(
      env: Env, quotePrice: nat, side: Side, base: Token, quote: Token, price: nat, takerRate: nat, makerRate: nat,
      q: nat)
    requires env.Decimal(base) > 0 && env.Decimal(quote) > 0
    ensures var legs := SettleBalance(env, quotePrice, side, base, quote, price, takerRate, makerRate, q);
      legs.Some? ==>
        && legs.value.taker.inTotal > 0 && legs.value.maker.inTotal > 0
        && forall fee | fee in {legs.value.taker.fee, legs.value.maker.fee} ::
             Worthwhile(quote, quotePrice, env.Decimal(quote), fee, RELAYER_FEE)
  {
    var legs := SettleBalance(env, quotePrice, side, base, quote, price, takerRate, makerRate, q);
    if q == 0 {
      assert MulDiv(0, price, env.Decimal(base)) == 0;
    }
  }

  lemma RelayersPayTwice(deposits: map<Address, nat>, taker: Address, maker: Address)
    ensures var after := PayRelayers(deposits, taker, maker);
      after.Some? ==> TotalOf(after.value) == TotalOf(deposits) - 2 * RELAYER_FEE
  {
    if PayRelayers(deposits, taker, maker).Some? {
      var first := deposits[taker := ValueOf(deposits, taker) - RELAYER_FEE];
      TotalWrite(deposits, taker, ValueOf(deposits, taker) - RELAYER_FEE);
      TotalWrite(first, maker, ValueOf(first, maker) - RELAYER_FEE);
    }
  }

  /** A solvent contract can pay what the relayers pay. */
  lemma SolventPays(env: Env, s: Funds, taker: Address, maker: Address)
    requires Solvent(env.contract, s.balances, s.deposits) && PayRelayers(s.deposits, taker, maker).Some?
    ensures Paid(s.balances, env.contract, env.masternodeOwner, 2 * RELAYER_FEE).Some?
  {
    RelayersPayTwice(s.deposits, taker, maker);
    TotalNonNegative(PayRelayers(s.deposits, taker, maker).value);
  }

  /** The accounts of the fee payment, and the parties whose settlement does not write them. */
  ghost predicate Apart(env: Env, p: Party) {
    && p.user != env.contract && p.user != env.masternodeOwner
    && env.OwnerOf(p.exchange) != env.contract && env.OwnerOf(p.exchange) != env.masternodeOwner
  }

  lemma EntriesApart(env: Env, taker: Party, maker: Party, legs: Legs)
    ensures var w := Written(Entries(env, taker, maker, legs));
      Apart(env, taker) && Apart(env, maker) ==>
        Account(XDC_NATIVE, env.contract) !in w && Account(XDC_NATIVE, env.masternodeOwner) !in w
  {
    var es := Entries(env, taker, maker, legs);
    NetOfSix(es[0], es[1], es[2], es[3], es[4], es[5], XDC_NATIVE);
  }

  /**
   For every aliasing among taker, maker and relayer owners, a settlement gives what applying the entries one after
   another and then paying the masternode gives, and it keeps the supply of every token, unless it wrote the
   contract's or the masternode owner's coins.
   */
  lemma SettleIsSequential(env: Env, s: Funds, taker: Party, maker: Party, legs: Legs, t: Token)
    requires Settle(env, s, taker, maker, legs).Some?
    ensures var after := Settle(env, s, taker, maker, legs).value.balances;
      var es := Entries(env, taker, maker, legs);
      var from, to := Account(XDC_NATIVE, env.contract), Account(XDC_NATIVE, env.masternodeOwner);
      var sequential := ApplyAll(s.balances, env.tokens, es);
      && sequential.Some?
      && (Paid(sequential.value, env.contract, env.masternodeOwner, 2 * RELAYER_FEE) == Some(after) <==>
            if from == to then 2 * RELAYER_FEE <= BalanceOf(sequential.value, from)
            else from !in Written(es) && to !in Written(es))
      && Supply(after, t) == Supply(s.balances, t) + Net(es, t) +
           if t != XDC_NATIVE then 0
           else (if from in Written(es) then 2 * RELAYER_FEE else 0) - (if to in Written(es) then 2 * RELAYER_FEE
               else 0)
  {
    hide Entries, Net, Written, Paid;
    var es := Entries(env, taker, maker, legs);
    OverlayIsSequential(s.balances, env.tokens, es);
    ApplyMovesSupply(s.balances, env.tokens, es, t);
    var overlay := CheckAll(s.balances, env.tokens, es).value;
    assert BalanceOf(s.balances + overlay, Account(XDC_NATIVE, env.contract)) ==
      Read(s.balances, overlay, Account(XDC_NATIVE, env.contract));
    WriteBackExact(s.balances, overlay, env.contract, env.masternodeOwner, 2 * RELAYER_FEE);
    WriteBackSupply(s.balances, overlay, env.contract, env.masternodeOwner, 2 * RELAYER_FEE, t);
  }

  /** A market of token 5 in the native coin, with one relayer and no fees. */
  function SampleEnv(): Env {
    Env({5}, map[5 := 1, XDC_NATIVE := BASE_PRICE], map[7 := 8], map[], 20, 10)
  }

  /** The owner of the masternode holds 50,000 coins, and the relayer has deposited 30,000. */
  function SampleFunds(): Funds {
    Funds(map[Account(XDC_NATIVE, 10) := 50_000 * BASE_PRICE, Account(5, 33) := 1000,
              Account(XDC_NATIVE, 20) := 50_000 * BASE_PRICE],
          map[7 := 30_000 * BASE_PRICE], map[])
  }

  function SampleBuyer(): Order<Party> { Order(0, Bid, BASE_PRICE, 1000, Party(10, 7, 5, XDC_NATIVE, 0, "")) }

  function SampleSeller(): Order<Party> { Order(1, Ask, BASE_PRICE, 1000, Party(33, 7, 5, XDC_NATIVE, 0, "")) }

  function SampleLegs(): Legs {
    Legs(Leg(0, 5, 1000, XDC_NATIVE, 1000 * BASE_PRICE), Leg(0, XDC_NATIVE, 1000 * BASE_PRICE, 5, 1000))
  }

  lemma SampleAmounts()
    ensures var env, s := SampleEnv(), SampleFunds();
      && Tradable(env, s, SampleBuyer(), SampleSeller(), 1000) == Quantity(1000, false)
      && SettleBalance(env, QuotePrice(env, s, XDC_NATIVE), Bid, 5, XDC_NATIVE, BASE_PRICE, 0, 0, 1000) ==
        Some(SampleLegs())
  {
    assert MulDiv(1000, BASE_PRICE, 1) == 1000 * BASE_PRICE;
    assert MulDiv(1000 * BASE_PRICE, 0, BASE_FEE) == 0;
    assert MulDiv(1000 * BASE_PRICE, DEFAULT_FEE_RATE, BASE_FEE) == BASE_PRICE;
  }

  /**
   The owner of the masternode buys 1000 tokens for 1000 coins: the trade settles, and the masternode's two fees are
   lost.
   */
  lemma OwnerLosesFee()
    ensures var env, s := SampleEnv(), SampleFunds();
      var r := SettleTrade(env, s, SampleBuyer(), SampleSeller(), 1000);
      && SampleBuyer().data.user == env.masternodeOwner && r.Settled? && r.traded == 1000
      && Supply(r.state.balances, XDC_NATIVE) == Supply(s.balances, XDC_NATIVE) - 2 * RELAYER_FEE
  {
    hide CheckAll, Supply, Net, Written, SettleBalance, Tradable, QuotePrice;
    var env, s, legs := SampleEnv(), SampleFunds(), SampleLegs();
    var taker, maker := SampleBuyer().data, SampleSeller().data;
    SampleAmounts();
    assert Roomy(s.balances, Credits(legs));
    ChosenSettles(env, s, taker, maker, legs);
    SettleIsSequential(env, s, taker, maker, legs, XDC_NATIVE);
    var es := Entries(env, taker, maker, legs);
    NetOfSix(es[0], es[1], es[2], es[3], es[4], es[5], XDC_NATIVE);
  }

  lemma NetAtOfSix(a: Entry, b: Entry, c: Entry, d: Entry, e: Entry, f: Entry, x: Account)
    ensures NetAt([a, b, c, d, e, f], x) == At(a, x) + At(b, x) + At(c, x) + At(d, x) + At(e, x) + At(f, x)
  {
    hide NetAt;
    NoneAt(x);
    NetAtAppend([], a, x);
    NetAtAppend([a], b, x);
    NetAtAppend([a, b], c, x);
    NetAtAppend([a, b, c], d, x);
    NetAtAppend([a, b, c, d], e, x);
    NetAtAppend([a, b, c, d, e], f, x);
    assert [] + [a] == [a] && [a] + [b] == [a, b] && [a, b] + [c] == [a, b, c] && [a, b, c] + [d] == [a, b, c, d];
    assert [a, b, c, d] + [e] == [a, b, c, d, e] && [a, b, c, d, e] + [f] == [a, b, c, d, e, f];
  }

  /** What the fee accounts move by: a written account forgets its part of the payment. */
  function FeeMove(env: Env, es: seq<Entry>, a: Account): int {
    if a in Written(es) then 0
    else (if a == Account(XDC_NATIVE, env.masternodeOwner) then 2 * RELAYER_FEE else 0)
         - (if a == Account(XDC_NATIVE, env.contract) then 2 * RELAYER_FEE else 0)
  }

  /** An amount, if it is for this account. */
  function For(owner: Account, amount: int, a: Account): int { if a == owner then amount else 0 }

  /** What the two legs move into one account. */
  function LegMoves(env: Env, taker: Party, maker: Party, legs: Legs, a: Account): int {
    For(Account(legs.taker.inToken, taker.user), legs.taker.inTotal, a)
      - For(Account(legs.taker.outToken, taker.user), legs.taker.outTotal, a)
    + For(Account(legs.maker.inToken, maker.user), legs.maker.inTotal, a)
      - For(Account(legs.maker.outToken, maker.user), legs.maker.outTotal, a)
    + For(Account(maker.quote, env.OwnerOf(taker.exchange)), legs.taker.fee, a)
    + For(Account(maker.quote, env.OwnerOf(maker.exchange)), legs.maker.fee, a)
  }

  /**
   What every account gains, for every aliasing: each side receives and hands over its leg, the owner of each relayer
   earns that side's fee, and the fee accounts move as far as they were not written.
   */
  lemma SettledBalances(env: Env, s: Funds, taker: Party, maker: Party, legs: Legs, a: Account)
    requires Settle(env, s, taker, maker, legs).Some?
    ensures BalanceOf(Settle(env, s, taker, maker, legs).value.balances, a) ==
      BalanceOf(s.balances, a) + LegMoves(env, taker, maker, legs, a)
        + FeeMove(env, Entries(env, taker, maker, legs), a)
  {
    hide Paid, PayRelayers, Entries, LegMoves, CheckAll, ApplyAll, NetAt, Written;
    var es := Entries(env, taker, maker, legs);
    OverlayIsSequential(s.balances, env.tokens, es);
    ApplyMovesAccount(s.balances, env.tokens, es, a);
    EntriesAt(env, taker, maker, legs, a);
    PaidUnder(env, s.balances, CheckAll(s.balances, env.tokens, es).value, a);
  }

  lemma EntriesAt(env: Env, taker: Party, maker: Party, legs: Legs, a: Account)
    ensures NetAt(Entries(env, taker, maker, legs), a) == LegMoves(env, taker, maker, legs, a)
  {
    var es := Entries(env, taker, maker, legs);
    NetAtOfSix(es[0], es[1], es[2], es[3], es[4], es[5], a);
    hide NetAt;
  }

  lemma PaidUnder(env: Env, b: Balances, overlay: Balances, a: Account)
    requires Paid(b, env.contract, env.masternodeOwner, 2 * RELAYER_FEE).Some?
    ensures BalanceOf(Paid(b, env.contract, env.masternodeOwner, 2 * RELAYER_FEE).value + overlay, a) ==
      BalanceOf(b + overlay, a) +
      if a in overlay then 0
      else (if a == Account(XDC_NATIVE, env.masternodeOwner) then 2 * RELAYER_FEE else 0)
           - (if a == Account(XDC_NATIVE, env.contract) then 2 * RELAYER_FEE else 0)
  {
  }

  /** The last price of a pair is the price of the maker it last traded with; without a trade nothing changes. */
  lemma LastPriceFollows(env: Env, s: Funds, taker: Order<Party>, maker: Order<Party>, q: nat)
    ensures var r := SettleTrade(env, s, taker, maker, q);
      r.Settled? ==>
        && (r.traded == 0 ==> r.state == s)
        && (r.traded > 0 ==> r.state.lastPrices == s.lastPrices[Pair(maker.data.base, maker.data.quote) := maker.price])
  {
    hide SettleBalance, CheckAll, Entries, Paid, Tradable, PayRelayers, QuotePrice;
  }

  /** Whatever trades, the deposit of each relayer involved stays above what is locked, and no other deposit moves. */
  lemma DepositsStayLocked(env: Env, s: Funds, taker: Order<Party>, maker: Order<Party>, q: nat, exchange: Address)
    ensures var r := SettleTrade(env, s, taker, maker, q);
      r.Settled? ==>
        && (r.traded > 0 && exchange in {taker.data.exchange, maker.data.exchange} ==>
              ValueOf(r.state.deposits, exchange) >= RELAYER_LOCKED_FUND)
        && (r.traded == 0 || exchange !in {taker.data.exchange, maker.data.exchange} ==>
              ValueOf(r.state.deposits, exchange) == ValueOf(s.deposits, exchange))
  {
    hide SettleBalance, CheckAll, Entries, Paid, Tradable;
  }

  /** What a trade moves into one account, told by buyer and seller. */
  function TradeMoves(
      env: Env, buyer: Party, seller: Party, base: Token, quote: Token, q: nat, amount: nat, a: Account): int {
    var buyerFee, sellerFee := MulDiv(amount, env.FeeRate(buyer.exchange), BASE_FEE),
        MulDiv(amount, env.FeeRate(seller.exchange), BASE_FEE);
    For(Account(base, buyer.user), q, a) - For(Account(quote, buyer.user), amount + buyerFee, a)
    + For(Account(quote, seller.user), amount - sellerFee, a) - For(Account(base, seller.user), q, a)
    + For(Account(quote, env.OwnerOf(buyer.exchange)), buyerFee, a)
      + For(Account(quote, env.OwnerOf(seller.exchange)), sellerFee, a)
  }

  /**
   A settled trade from end to end: the buyer gets the quantity for its worth at the maker's price and a fee, the
   seller gets the worth less a fee and more than nothing, each fee goes to the owner of that side's relayer and is
   worth nothing or more than its relayer pays, the fee accounts move as far as they were not written, no deposit
   falls below what is locked, and the maker's price becomes the last price of the pair.
   */
  lemma TradeOutcome(
      env: Env, s: Funds, taker: Order<Party>, maker: Order<Party>, q: nat, a: Account) returns (es: seq<Entry>)
    ensures var r := SettleTrade(env, s, taker, maker, q);
      var base, quote := maker.data.base, maker.data.quote;
      var buyer := if taker.side == Bid then taker.data else maker.data;
      var seller := if taker.side == Bid then maker.data else taker.data;
      r.Settled? && r.traded > 0 ==>
        && env.Decimal(base) > 0 && env.Decimal(quote) > 0
        && var amount := MulDiv(r.traded, maker.price, env.Decimal(base));
        && BalanceOf(r.state.balances, a) ==
             BalanceOf(s.balances, a) + TradeMoves(env, buyer, seller, base, quote, r.traded, amount, a)
               + FeeMove(env, es, a)
        && Written(es) == {Account(base, buyer.user), Account(quote, buyer.user), Account(quote, seller.user),
                           Account(base, seller.user),
                           Account(quote, env.OwnerOf(buyer.exchange)), Account(quote, env.OwnerOf(seller.exchange))}
        && amount > MulDiv(amount, env.FeeRate(seller.exchange), BASE_FEE)
        && (forall p | p in {buyer, seller} ::
              Worthwhile(quote, QuotePrice(env, s, quote), env.Decimal(quote),
                         MulDiv(amount, env.FeeRate(p.exchange), BASE_FEE), RELAYER_FEE))
        && (forall x ::
            if x in {buyer.exchange, seller.exchange} then ValueOf(r.state.deposits, x) >= RELAYER_LOCKED_FUND
                        else ValueOf(r.state.deposits, x) == ValueOf(s.deposits, x))
        && r.state.lastPrices == s.lastPrices[Pair(base, quote) := maker.price]
  {
    hide SettleTrade, SettleBalance, Settle, MulDiv, FeeMove, Written, Net, TradeMoves, Entries, QuotePrice, Worthwhile;
    es := [];
    var r := SettleTrade(env, s, taker, maker, q);
    if r.Settled? && r.traded > 0 {
      var legs := SettledLegs(env, s, taker, maker, q);
      es := Entries(env, taker.data, maker.data, legs);
      var price, base, quote := QuotePrice(env, s, maker.data.quote), maker.data.base, maker.data.quote;
      LegsMove(env, price, s, taker, maker, legs, r.traded, a);
      FeesWorth(env, price, taker, maker, legs, r.traded);
      LastPriceFollows(env, s, taker, maker, q);
      forall x ensures if x in {taker.data.exchange, maker.data.exchange}
                       then ValueOf(r.state.deposits, x) >= RELAYER_LOCKED_FUND
        else ValueOf(r.state.deposits, x) == ValueOf(s.deposits, x) {
        DepositsStayLocked(env, s, taker, maker, q, x);
      }
    }
  }

  /** The moves of the legs, told by buyer and seller. */
  lemma LegsMove(
      env: Env, price: nat, s: Funds, taker: Order<Party>, maker: Order<Party>, legs: Legs, q: nat, a: Account)
    requires env.Decimal(maker.data.base) > 0 && env.Decimal(maker.data.quote) > 0
      && Settle(env, s, taker.data, maker.data, legs).Some?
    requires SettleBalance(env, price, taker.side, maker.data.base, maker.data.quote, maker.price,
                           env.FeeRate(taker.data.exchange), env.FeeRate(maker.data.exchange), q) == Some(legs)
    ensures var es, base, quote := Entries(env, taker.data, maker.data, legs), maker.data.base, maker.data.quote;
      var buyer := if taker.side == Bid then taker.data else maker.data;
      var seller := if taker.side == Bid then maker.data else taker.data;
      var amount := MulDiv(q, maker.price, env.Decimal(base));
      && BalanceOf(Settle(env, s, taker.data, maker.data, legs).value.balances, a) ==
           BalanceOf(s.balances, a) + TradeMoves(env, buyer, seller, base, quote, q, amount, a) + FeeMove(env, es, a)
      && Written(es) == {Account(base, buyer.user), Account(quote, buyer.user), Account(quote, seller.user),
                         Account(base, seller.user),
                         Account(quote, env.OwnerOf(buyer.exchange)), Account(quote, env.OwnerOf(seller.exchange))}
  {
    hide SettleBalance, Settle, MulDiv, FeeMove, Written, LegMoves, TradeMoves, Entries;
    SettledBalances(env, s, taker.data, maker.data, legs, a);
    LegsTold(env, price, taker, maker, legs, q, a);
    WrittenTold(env, price, taker, maker, legs, q);
  }

  lemma LegsTold(env: Env, price: nat, taker: Order<Party>, maker: Order<Party>, legs: Legs, q: nat, a: Account)
    requires env.Decimal(maker.data.base) > 0 && env.Decimal(maker.data.quote) > 0
    requires SettleBalance(env, price, taker.side, maker.data.base, maker.data.quote, maker.price,
                           env.FeeRate(taker.data.exchange), env.FeeRate(maker.data.exchange), q) == Some(legs)
    ensures var buyer := if taker.side == Bid then taker.data else maker.data;
      var seller := if taker.side == Bid then maker.data else taker.data;
      LegMoves(env, taker.data, maker.data, legs, a) ==
        TradeMoves(env, buyer, seller, maker.data.base, maker.data.quote, q,
                   MulDiv(q, maker.price, env.Decimal(maker.data.base)), a)
  {
    var takerRate, makerRate := env.FeeRate(taker.data.exchange), env.FeeRate(maker.data.exchange);
    SettlementPays(env, price, taker.side, maker.data.base, maker.data.quote, maker.price, takerRate, makerRate, q);
    hide SettleBalance, MulDiv, For;
  }

  lemma WrittenTold(env: Env, price: nat, taker: Order<Party>, maker: Order<Party>, legs: Legs, q: nat)
    requires env.Decimal(maker.data.base) > 0 && env.Decimal(maker.data.quote) > 0
    requires SettleBalance(env, price, taker.side, maker.data.base, maker.data.quote, maker.price,
                           env.FeeRate(taker.data.exchange), env.FeeRate(maker.data.exchange), q) == Some(legs)
    ensures var es, base, quote := Entries(env, taker.data, maker.data, legs), maker.data.base, maker.data.quote;
      var buyer := if taker.side == Bid then taker.data else maker.data;
      var seller := if taker.side == Bid then maker.data else taker.data;
      Written(es) == {Account(base, buyer.user), Account(quote, buyer.user), Account(quote, seller.user),
                      Account(base, seller.user),
                      Account(quote, env.OwnerOf(buyer.exchange)), Account(quote, env.OwnerOf(seller.exchange))}
  {
    var takerRate, makerRate := env.FeeRate(taker.data.exchange), env.FeeRate(maker.data.exchange);
    SettlementPays(env, price, taker.side, maker.data.base, maker.data.quote, maker.price, takerRate, makerRate, q);
    var es := Entries(env, taker.data, maker.data, legs);
    NetOfSix(es[0], es[1], es[2], es[3], es[4], es[5], XDC_NATIVE);
    hide SettleBalance, MulDiv, Written, Net;
  }

  lemma FeesWorth(env: Env, price: nat, taker: Order<Party>, maker: Order<Party>, legs: Legs, q: nat)
    requires env.Decimal(maker.data.base) > 0 && env.Decimal(maker.data.quote) > 0
    requires SettleBalance(env, price, taker.side, maker.data.base, maker.data.quote, maker.price,
                           env.FeeRate(taker.data.exchange), env.FeeRate(maker.data.exchange), q) == Some(legs)
    ensures var buyer := if taker.side == Bid then taker.data else maker.data;
      var seller := if taker.side == Bid then maker.data else taker.data;
      var amount := MulDiv(q, maker.price, env.Decimal(maker.data.base));
      && amount > MulDiv(amount, env.FeeRate(seller.exchange), BASE_FEE)
      && forall p | p in {buyer, seller} ::
           Worthwhile(maker.data.quote, price, env.Decimal(maker.data.quote),
                      MulDiv(amount, env.FeeRate(p.exchange), BASE_FEE), RELAYER_FEE)
  {
    var takerRate, makerRate := env.FeeRate(taker.data.exchange), env.FeeRate(maker.data.exchange);
    SettlementPays(env, price, taker.side, maker.data.base, maker.data.quote, maker.price, takerRate, makerRate, q);
    SettlementWorthwhile(env, price, taker.side, maker.data.base, maker.data.quote, maker.price, takerRate, makerRate,
                         q);
    hide SettleBalance, MulDiv, Worthwhile;
  }

  /** The legs a settled trade was settled with. */
  lemma SettledLegs(env: Env, s: Funds, taker: Order<Party>, maker: Order<Party>, q: nat) returns (legs: Legs)
    requires var r := SettleTrade(env, s, taker, maker, q); r.Settled? && r.traded > 0
    ensures env.Decimal(maker.data.base) > 0 && env.Decimal(maker.data.quote) > 0
    ensures var r := SettleTrade(env, s, taker, maker, q);
      && SettleBalance(env, QuotePrice(env, s, maker.data.quote), taker.side, maker.data.base, maker.data.quote,
                       maker.price,
                       env.FeeRate(taker.data.exchange), env.FeeRate(maker.data.exchange), r.traded) == Some(legs)
      && Settle(env, s, taker.data, maker.data, legs).Some?
      && Settle(env, s, taker.data, maker.data, legs).value.balances == r.state.balances
  {
    hide SettleBalance, Settle, Tradable, QuotePrice;
    legs := SettleBalance(env, QuotePrice(env, s, maker.data.quote), taker.side, maker.data.base, maker.data.quote,
                          maker.price,
                          env.FeeRate(taker.data.exchange), env.FeeRate(maker.data.exchange),
                              SettleTrade(env, s, taker, maker, q).traded).value;
  }

  /** Trades between parties apart from the fee accounts keep every supply, and the contract solvent. */
  lemma TradeConserves(env: Env, s: Funds, taker: Order<Party>, maker: Order<Party>, q: nat, t: Token)
    requires Apart(env, taker.data) && Apart(env, maker.data)
    ensures var r := SettleTrade(env, s, taker, maker, q);
      r.Settled? ==>
        Supply(r.state.balances, t) == Supply(s.balances, t)
          && (Solvent(env.contract, s.balances, s.deposits) ==>
              Solvent(env.contract, r.state.balances, r.state.deposits))
  {
    hide SettleBalance, Settle, TotalOf, Tradable, QuotePrice;
    var r := SettleTrade(env, s, taker, maker, q);
    if r.Settled? && r.traded > 0 {
      var n := Tradable(env, s, taker, maker, q).traded;
      var takerRate, makerRate := env.FeeRate(taker.data.exchange), env.FeeRate(maker.data.exchange);
      var legs := SettleBalance(env, QuotePrice(env, s, maker.data.quote), taker.side, maker.data.base,
                                maker.data.quote, maker.price,
                                takerRate, makerRate, n).value;
      TradeIsBalanced(env, QuotePrice(env, s, maker.data.quote), taker.side, taker.data, maker.data, maker.price,
                      takerRate, makerRate, n, t);
      SettleIsSequential(env, s, taker.data, maker.data, legs, t);
      EntriesApart(env, taker.data, maker.data, legs);
      SettleKeepsSolvent(env, s, taker.data, maker.data, legs);
    }
  }

  lemma SettleKeepsSolvent(env: Env, s: Funds, taker: Party, maker: Party, legs: Legs)
    requires Settle(env, s, taker, maker, legs).Some? && Apart(env, taker) && Apart(env, maker)
    ensures var r := Settle(env, s, taker, maker, legs).value;
      Solvent(env.contract, s.balances, s.deposits) ==> Solvent(env.contract, r.balances, r.deposits)
  {
    hide Entries, TotalOf, PayRelayers;
    OverlayIsSequential(s.balances, env.tokens, Entries(env, taker, maker, legs));
    EntriesApart(env, taker, maker, legs);
    RelayersPayTwice(s.deposits, taker.exchange, maker.exchange);
  }

  // ----- a chosen quantity always settles

  /** No balance is close to the width of a word. */
  ghost predicate Roomy(b: Balances, credits: nat) {
    forall a: Account :: BalanceOf(b, a) + credits < WORD
  }

  ghost function Credits(legs: Legs): nat {
    legs.taker.inTotal + legs.maker.inTotal + legs.taker.fee + legs.maker.fee
  }

  /**
   The settlement of a quantity that both can pay never runs out of balance, whoever the parties are: it fails
   only for an unknown token, an overflow, a relayer without owner or deposit, or an insolvent contract.
   */
  lemma ChosenSettles(env: Env, s: Funds, taker: Party, maker: Party, legs: Legs)
    requires legs.taker.outTotal <= TokenBalance(env.tokens, s.balances, taker.user, legs.taker.outToken)
    requires legs.maker.outTotal <= TokenBalance(env.tokens, s.balances, maker.user, legs.maker.outToken)
    requires legs.taker.outToken == legs.maker.inToken && legs.maker.outToken == legs.taker.inToken
    requires legs.maker.outToken != legs.taker.outToken
    requires Known(env.tokens, maker.quote) && Known(env.tokens, legs.taker.outToken)
      && Known(env.tokens, legs.maker.outToken)
    requires Roomy(s.balances, Credits(legs))
    ensures CheckAll(s.balances, env.tokens, Entries(env, taker, maker, legs)).Some?
  {
    hide CheckAll, Accepts, Moved;
    var es := Entries(env, taker, maker, legs);
    var b, tokens := s.balances, env.tokens;
    var o := PartiesSettle(env, s, taker, maker, legs);
    OwnersSettle(b, tokens, es[..4], o, es[4], es[5], legs.taker.inTotal + legs.maker.inTotal);
    assert es == es[..4] + [es[4]] + [es[5]];
  }

  /** The four entries of the traders. */
  lemma PartiesSettle(env: Env, s: Funds, taker: Party, maker: Party, legs: Legs) returns (overlay: Balances)
    requires legs.taker.outTotal <= TokenBalance(env.tokens, s.balances, taker.user, legs.taker.outToken)
    requires legs.maker.outTotal <= TokenBalance(env.tokens, s.balances, maker.user, legs.maker.outToken)
    requires legs.taker.outToken == legs.maker.inToken && legs.maker.outToken == legs.taker.inToken
    requires legs.maker.outToken != legs.taker.outToken
    requires Known(env.tokens, legs.taker.outToken) && Known(env.tokens, legs.maker.outToken)
    requires Roomy(s.balances, legs.taker.inTotal + legs.maker.inTotal)
    ensures CheckAll(s.balances, env.tokens, Entries(env, taker, maker, legs)[..4]) == Some(overlay)
    ensures forall a: Account ::
      Read(s.balances, overlay, a) <= BalanceOf(s.balances, a) + legs.taker.inTotal + legs.maker.inTotal
  {
    var es := Entries(env, taker, maker, legs);
    var b, tokens := s.balances, env.tokens;
    CheckNone(b, tokens);
    hide CheckAll;
    var one := CheckNext(b, tokens, [], map[], es[0]);
    var two := CheckNext(b, tokens, [] + [es[0]], one, es[1]);
    var three := CheckNext(b, tokens, [] + [es[0]] + [es[1]], two, es[2]);
    overlay := CheckNext(b, tokens, [] + [es[0]] + [es[1]] + [es[2]], three, es[3]);
    assert es[..4] == [] + [es[0]] + [es[1]] + [es[2]] + [es[3]];
  }

  /** The two fees of the relayers' owners. */
  lemma OwnersSettle(
      b: Balances, tokens: set<Token>, es: seq<Entry>, o: Balances, first: Entry, second: Entry, credits: nat)
    requires CheckAll(b, tokens, es) == Some(o) && Roomy(b, credits + first.amount + second.amount)
    requires forall a: Account :: Read(b, o, a) <= BalanceOf(b, a) + credits
    requires first.credit && second.credit && Known(tokens, first.account.token) && Known(tokens, second.account.token)
    ensures CheckAll(b, tokens, es + [first] + [second]).Some?
  {
    hide CheckAll;
    var one := CheckNext(b, tokens, es, o, first);
    assert Read(b, one, second.account) <= BalanceOf(b, second.account) + credits + first.amount;
    var two := CheckNext(b, tokens, es + [first], one, second);
  }

  /** The legs of what taker and maker can trade. */
  function ChosenLegs(env: Env, s: Funds, taker: Order<Party>, maker: Order<Party>, q: nat): Option<Legs>
    requires maker.price > 0 && env.Decimal(maker.data.base) > 0 && env.Decimal(maker.data.quote) > 0
  {
    SettleBalance(env, QuotePrice(env, s, maker.data.quote), taker.side, maker.data.base, maker.data.quote, maker.price,
                  env.FeeRate(taker.data.exchange), env.FeeRate(maker.data.exchange),
                      Tradable(env, s, taker, maker, q).traded)
  }

  /** So a match of two proper orders never fails in a solvent state, and no order is undone for want of balance. */
  lemma TradeNeverFails(env: Env, s: Funds, taker: Order<Party>, maker: Order<Party>, q: nat)
    requires maker.price > 0 && env.Decimal(maker.data.base) > 0 && env.Decimal(maker.data.quote) > 0
    requires maker.data.base != maker.data.quote && Known(env.tokens, maker.data.base)
      && Known(env.tokens, maker.data.quote)
    requires env.OwnerOf(taker.data.exchange) != 0 && env.OwnerOf(maker.data.exchange) != 0
    requires Solvent(env.contract, s.balances, s.deposits)
    requires var legs := ChosenLegs(env, s, taker, maker, q); legs.Some? ==> Roomy(s.balances, Credits(legs.value))
    ensures !SettleTrade(env, s, taker, maker, q).Failure?
  {
    hide SettleBalance, CheckAll, Entries, PayRelayers, Solvent, BuyerPays, BuyerLimit, Choose, Roomy, Paid;
    var legs := ChosenLegs(env, s, taker, maker, q);
    if legs.Some? {
      AffordableLegs(env, s, taker, maker, q);
      ChosenSettles(env, s, taker.data, maker.data, legs.value);
      RelayersCanPay(s, taker.data.exchange, maker.data.exchange);
      if PayRelayers(s.deposits, taker.data.exchange, maker.data.exchange).Some? {
        SolventPays(env, s, taker.data.exchange, maker.data.exchange);
      }
    }
  }

  lemma RelayersCanPay(s: Funds, taker: Address, maker: Address)
    ensures
      (taker == maker && CanPay(s.deposits, taker, 2 * RELAYER_FEE)) ||
      (taker != maker && CanPay(s.deposits, taker, RELAYER_FEE) && CanPay(s.deposits, maker, RELAYER_FEE)) ==>
      PayRelayers(s.deposits, taker, maker).Some?
  {
  }

  lemma AffordableLegs(env: Env, s: Funds, taker: Order<Party>, maker: Order<Party>, q: nat)
    requires maker.price > 0 && env.Decimal(maker.data.base) > 0 && env.Decimal(maker.data.quote) > 0
    requires maker.data.base != maker.data.quote && ChosenLegs(env, s, taker, maker, q).Some?
    ensures var legs := ChosenLegs(env, s, taker, maker, q).value;
      && legs.taker.outTotal <= TokenBalance(env.tokens, s.balances, taker.data.user, legs.taker.outToken)
      && legs.maker.outTotal <= TokenBalance(env.tokens, s.balances, maker.data.user, legs.maker.outToken)
      && legs.taker.outToken == legs.maker.inToken && legs.maker.outToken == legs.taker.inToken
      && legs.maker.outToken != legs.taker.outToken
      && {legs.maker.outToken, legs.taker.outToken} == {maker.data.base, maker.data.quote}
  {
    hide SettleBalance, BuyerPays, BuyerLimit, Choose;
    var buyer := if taker.side == Bid then taker.data else maker.data;
    var terms := Terms(maker.price, env.Decimal(maker.data.base), env.FeeRate(buyer.exchange));
    TradeQuantitySound(taker.side, terms,
                       TokenBalance(env.tokens, s.balances, taker.data.user, if taker.side == Bid then maker.data.quote
                           else maker.data.base),
                       TokenBalance(env.tokens, s.balances, maker.data.user, if taker.side == Bid then maker.data.base
                           else maker.data.quote), q);
    SettlementPays(env, QuotePrice(env, s, maker.data.quote), taker.side, maker.data.base, maker.data.quote,
                   maker.price,
                   env.FeeRate(taker.data.exchange), env.FeeRate(maker.data.exchange),
                       Tradable(env, s, taker, maker, q).traded);
  }

  /** The supply of every token is far below the width of a word. */
  ghost predicate Ample(b: Balances) {
    forall t: Token :: 3 * Supply(b, t) < WORD
  }

  /**
   An order whose pair has two known tokens with decimals, through a relayer with an owner, apart from the fee
   accounts.
   */
  predicate Listed(env: Env, p: Party) {
    && env.Decimal(p.base) > 0 && env.Decimal(p.quote) > 0 && p.base != p.quote
    && Known(env.tokens, p.base) && Known(env.tokens, p.quote) && env.OwnerOf(p.exchange) != 0
  }

  lemma AmpleRoom(env: Env, s: Funds, taker: Order<Party>, maker: Order<Party>, q: nat)
    requires maker.price > 0 && Listed(env, maker.data) && Ample(s.balances)
      && ChosenLegs(env, s, taker, maker, q).Some?
    ensures Roomy(s.balances, Credits(ChosenLegs(env, s, taker, maker, q).value))
  {
    var legs := ChosenLegs(env, s, taker, maker, q).value;
    AffordableLegs(env, s, taker, maker, q);
    CreditsBounded(env, QuotePrice(env, s, maker.data.quote), taker.side, maker.data.base, maker.data.quote,
                   maker.price,
                   env.FeeRate(taker.data.exchange), env.FeeRate(maker.data.exchange),
                       Tradable(env, s, taker, maker, q).traded);
    BalanceAtMostSupply(s.balances, Account(legs.taker.outToken, taker.data.user));
    BalanceAtMostSupply(s.balances, Account(legs.maker.outToken, maker.data.user));
    hide ChosenLegs, Supply, Listed;
    forall a: Account ensures BalanceOf(s.balances, a) + Credits(legs) < WORD {
      BalanceAtMostSupply(s.balances, a);
    }
  }

  /** Everything credited was handed over by one side or the other. */
  lemma CreditsBounded(
      env: Env, quotePrice: nat, side: Side, base: Token, quote: Token, price: nat, takerRate: nat, makerRate: nat,
      q: nat)
    requires env.Decimal(base) > 0 && env.Decimal(quote) > 0
    ensures var legs := SettleBalance(env, quotePrice, side, base, quote, price, takerRate, makerRate, q);
      legs.Some? ==> Credits(legs.value) == legs.value.taker.outTotal + legs.value.maker.outTotal
  {
    hide Unpaid, MulDiv;
  }

  /** What keeps trades from failing, and what they keep. */
  ghost predicate Healthy(env: Env, start: Balances, s: Funds) {
    Solvent(env.contract, s.balances, s.deposits) && Ample(s.balances) && forall t: Token ::
      Supply(s.balances, t) == Supply(start, t)
  }

  predicate Proper(env: Env, p: Party) {
    Listed(env, p) && p.user != env.contract && p.user != env.masternodeOwner
    && env.OwnerOf(p.exchange) != env.contract && env.OwnerOf(p.exchange) != env.masternodeOwner
  }

  lemma ProperTrade(env: Env, start: Balances, s: Funds, taker: Order<Party>, maker: Order<Party>, q: nat)
    requires Proper(env, taker.data) && Proper(env, maker.data) && maker.price > 0 && Healthy(env, start, s)
    ensures var r := SettleTrade(env, s, taker, maker, q); !r.Failure? && (r.Settled? ==> Healthy(env, start, r.state))
  {
    hide SettleTrade, Supply, Solvent;
    if ChosenLegs(env, s, taker, maker, q).Some? {
      AmpleRoom(env, s, taker, maker, q);
    }
    TradeNeverFails(env, s, taker, maker, q);
    var r := SettleTrade(env, s, taker, maker, q);
    if r.Settled? {
      forall t: Token
        ensures Supply(r.state.balances, t) == Supply(s.balances, t)
          && Solvent(env.contract, r.state.balances, r.state.deposits)
      {
        TradeConserves(env, s, taker, maker, q, t);
      }
      assert Solvent(env.contract, r.state.balances, r.state.deposits) by {
        TradeConserves(env, s, taker, maker, q, 0);
      }
    }
  }

  // ----- runs

  /**
   Over any run of orders between parties apart from the fee accounts, every supply is constant and the contract
   solvent.
   */
  lemma RunConserves(env: Env, e: Exchange<Funds, Party>, actions: seq<Action<Party>>, t: Token)
    requires Sane(e) && AllFit(e.book, p => Apart(env, p)) && Solvent(env.contract, e.state.balances, e.state.deposits)
    requires forall i | 0 <= i < |actions| && actions[i].Submit? :: Apart(env, actions[i].order.data)
    ensures Honest(TradeSettler(env))
    ensures var after := ActAll(e, actions, TradeSettler(env));
      Supply(after.state.balances, t) == Supply(e.state.balances, t)
        && Solvent(env.contract, after.state.balances, after.state.deposits)
  {
    TradesHonestly(env);
    var k := Supply(e.state.balances, t);
    var inv := (s: Funds, n: nat) => Supply(s.balances, t) == k && Solvent(env.contract, s.balances, s.deposits);
    var fit := (p: Party) => Apart(env, p);
    TradesKeep(env, t, k);
    assert AllFit(e.book, fit);
    RunKeeps(e, actions, TradeSettler(env), inv, fit);
  }

  lemma ProperTradesKeep(env: Env, start: Balances)
    ensures SettleKeeps(TradeSettler(env), (s: Funds, n: nat) => Healthy(env, start, s), (p: Party) => Proper(env, p))
  {
    hide SettleTrade, Healthy, Proper;
    forall s: Funds, taker: Order<Party>, maker: Order<Party>, q: nat | Proper(env, taker.data)
      && Proper(env, maker.data)
      ensures KeptAt((s: Funds, n: nat) => Healthy(env, start, s), s, TradeSettler(env)(s, taker, maker, q))
    {
      PricelessFails(env, s, taker, maker, q);
      if maker.price > 0 && Healthy(env, start, s) {
        ProperTrade(env, start, s, taker, maker, q);
      }
    }
  }

  lemma PricelessFails(env: Env, s: Funds, taker: Order<Party>, maker: Order<Party>, q: nat)
    ensures maker.price == 0 ==> SettleTrade(env, s, taker, maker, q).Failure?
  {
  }

  lemma ProperIsSmooth(env: Env, start: Balances, taker: Order<Party>)
    requires Proper(env, taker.data)
    ensures Smooth(TradeSettler(env), taker, (s: Funds) => Healthy(env, start, s), (p: Party) => Proper(env, p))
  {
    hide SettleTrade, Healthy, Proper;
    forall s: Funds, maker: Order<Party>, q: nat | Healthy(env, start, s) && Proper(env, maker.data) && maker.price > 0
      ensures SmoothAt((s: Funds) => Healthy(env, start, s), TradeSettler(env)(s, taker, maker, q))
    {
      ProperTrade(env, start, s, taker, maker, q);
    }
  }

  /**
   After any run of proper orders a proper order is never undone: no settlement it meets fails. Every supply stays
   what it was.
   */
  lemma NoOrderUndone(env: Env, e: Exchange<Funds, Party>, actions: seq<Action<Party>>, order: Order<Party>, kind: Kind)
    requires Sane(e) && AllFit(e.book, p => Proper(env, p))
      && Solvent(env.contract, e.state.balances, e.state.deposits) && Ample(e.state.balances) && Proper(env, order.data)
    requires forall i | 0 <= i < |actions| && actions[i].Submit? :: Proper(env, actions[i].order.data)
    ensures Honest(TradeSettler(env))
    ensures var now := ActAll(e, actions, TradeSettler(env));
      && Sane(now) && Healthy(env, e.state.balances, now.state) && AllFit(now.book, p => Proper(env, p))
      && Place(now, order, kind, TradeSettler(env)).Placed?
  {
    hide MatchBook, Healthy, Proper, SettleKeeps, Smooth, Honest, TradeSettler;
    TradesHonestly(env);
    var start := e.state.balances;
    var fit := (p: Party) => Proper(env, p);
    assert Healthy(env, start, e.state) by { HealthyStart(env, e.state); }
    ProperTradesKeep(env, start);
    assert AllFit(e.book, fit);
    RunKeeps(e, actions, TradeSettler(env), (s: Funds, n: nat) => Healthy(env, start, s), fit);
    NeverCrossed(e, actions, TradeSettler(env));
    RunFits(e, actions, TradeSettler(env), fit);
    var now := ActAll(e, actions, TradeSettler(env));
    ProperIsSmooth(env, start, order);
    BookNeverFails(Started(now, order), order, LimitOf(order, kind), TradeSettler(env),
                   (s: Funds) => Healthy(env, start, s), fit);
  }

  lemma HealthyStart(env: Env, s: Funds)
    requires Solvent(env.contract, s.balances, s.deposits) && Ample(s.balances)
    ensures Healthy(env, s.balances, s)
  {
  }

  lemma TradesKeep(env: Env, t: Token, k: int)
    ensures SettleKeeps(TradeSettler(env), (s: Funds, n: nat) => Supply(s.balances, t) == k
                        && Solvent(env.contract, s.balances, s.deposits), (p: Party) => Apart(env, p))
  {
    hide SettleTrade, Solvent, Apart, Supply;
    forall s: Funds, taker: Order<Party>, maker: Order<Party>, q: nat | Apart(env, taker.data) && Apart(env, maker.data)
      ensures KeptAt((s: Funds, n: nat) => Supply(s.balances, t) == k && Solvent(env.contract, s.balances, s.deposits),
                     s, TradeSettler(env)(s, taker, maker, q))
    {
      TradeConserves(env, s, taker, maker, q, t);
    }
  }

  // ----- the settlement in place

  class TradingLedger {
    const env: Env
    var balances: Balances
    var deposits: map<Address, nat>
    var lastPrices: map<Pair, nat>

    ghost function View(): Funds
      reads this
    {
      Funds(balances, deposits, lastPrices)
    }

    constructor (env: Env, funds: Funds)
      ensures this.env == env && View() == funds
    {
      this.env, balances, deposits, lastPrices := env, funds.balances, funds.deposits, funds.lastPrices;
    }

    /** Both relayers pay out of their deposits, and the contract pays the masternode's owner if it can. */
    method PayFees(taker: Address, maker: Address) returns (ok: bool)
      requires PayRelayers(deposits, taker, maker).Some?
      modifies this`balances, this`deposits
      ensures ok ==> PayRelayers(old(deposits), taker, maker) == Some(deposits)
      ensures ok ==> Paid(old(balances), env.contract, env.masternodeOwner, 2 * RELAYER_FEE) == Some(balances)
      ensures !ok ==> View() == old(View()) && Paid(balances, env.contract, env.masternodeOwner, 2 * RELAYER_FEE).None?
    {
      var from, to := Account(XDC_NATIVE, env.contract), Account(XDC_NATIVE, env.masternodeOwner);
      if BalanceOf(balances, from) < 2 * RELAYER_FEE {
        return false;
      }
      deposits := deposits[taker := ValueOf(deposits, taker) - RELAYER_FEE];
      balances := balances[from := BalanceOf(balances, from) - RELAYER_FEE];
      deposits := deposits[maker := ValueOf(deposits, maker) - RELAYER_FEE];
      balances := balances[from := BalanceOf(balances, from) - RELAYER_FEE];
      balances := balances[to := BalanceOf(balances, to) + 2 * RELAYER_FEE];
      assert Paid(old(balances), env.contract, env.masternodeOwner, 2 * RELAYER_FEE).value == balances;
      return true;
    }

    /** The check phase: the six new balances, each computed on what the ones before it left in the overlay. */
    method CheckBalances(es: seq<Entry>) returns (ok: bool, vs: seq<nat>, overlay: Balances)
      requires |es| == 6
      ensures CheckAll(balances, env.tokens, es) == if ok then Some(overlay) else None
      ensures ok ==> |vs| == 6 && overlay == Posted(map[], es, vs)
    {
      hide CheckAll, Check;
      ok, vs, overlay := false, [], map[];
      CheckNone(balances, env.tokens);
      var takerIn, o1 := Stage(balances, env.tokens, map[], es[0], []);
      assert es[..1] == [] + [es[0]];
      if takerIn.None? { FailedEarly(balances, env.tokens, es, 1); return; }
      var takerOut, o2 := Stage(balances, env.tokens, o1, es[1], es[..1]);
      assert es[..2] == es[..1] + [es[1]];
      if takerOut.None? { FailedEarly(balances, env.tokens, es, 2); return; }
      var makerIn, o3 := Stage(balances, env.tokens, o2, es[2], es[..2]);
      assert es[..3] == es[..2] + [es[2]];
      if makerIn.None? { FailedEarly(balances, env.tokens, es, 3); return; }
      var makerOut, o4 := Stage(balances, env.tokens, o3, es[3], es[..3]);
      assert es[..4] == es[..3] + [es[3]];
      if makerOut.None? { FailedEarly(balances, env.tokens, es, 4); return; }
      var takerFee, o5 := Stage(balances, env.tokens, o4, es[4], es[..4]);
      assert es[..5] == es[..4] + [es[4]];
      if takerFee.None? { FailedEarly(balances, env.tokens, es, 5); return; }
      var makerFee, o6 := Stage(balances, env.tokens, o5, es[5], es[..5]);
      assert es == es[..5] + [es[5]];
      if makerFee.None? { return; }
      ok, overlay := true, o6;
      vs := [takerIn.value, takerOut.value, makerIn.value, makerOut.value, takerFee.value, makerFee.value];
    }

    method DoSettleBalance(taker: Party, maker: Party, legs: Legs) returns (ok: bool)
      modifies this`balances, this`deposits
      ensures ok ==> Settle(env, old(View()), taker, maker, legs) == Some(View())
      ensures !ok ==> View() == old(View()) && Settle(env, View(), taker, maker, legs).None?
    {
      hide CheckAll, Paid, PayRelayers;
      if env.OwnerOf(taker.exchange) == 0 || env.OwnerOf(maker.exchange) == 0 {
        return false;
      }
      var es := Entries(env, taker, maker, legs);
      var affordable, vs, overlay := CheckBalances(es);
      if !affordable { return false; }
      affordable := CheckRelayers(taker.exchange, maker.exchange);
      if !affordable { return false; }
      affordable := PayFees(taker.exchange, maker.exchange);
      if !affordable { return false; }
      PostedOver(balances, es, vs);
      balances := balances[es[0].account := vs[0]];
      balances := balances[es[1].account := vs[1]];
      balances := balances[es[2].account := vs[2]];
      balances := balances[es[3].account := vs[3]];
      balances := balances[es[4].account := vs[4]];
      balances := balances[es[5].account := vs[5]];
      return true;
    }

    /** CheckSubRelayerFee for the taker and then, on what that leaves, for the maker. */
    method CheckRelayers(taker: Address, maker: Address) returns (ok: bool)
      ensures ok <==> PayRelayers(deposits, taker, maker).Some?
    {
      var takerDeposit := ValueOf(deposits, taker);
      if takerDeposit < RELAYER_FEE {
        return false;
      }
      var makerDeposit := if maker == taker then takerDeposit - RELAYER_FEE else ValueOf(deposits, maker);
      return makerDeposit >= RELAYER_FEE;
    }
  }

  /** Six balances written in turn. */
  function Posted(b: Balances, es: seq<Entry>, vs: seq<nat>): Balances
    requires |es| == |vs| == 6
  {
    b[es[0].account := vs[0]][es[1].account := vs[1]][es[2].account := vs[2]]
     [es[3].account := vs[3]][es[4].account := vs[4]][es[5].account := vs[5]]
  }

  lemma PostedOver(b: Balances, es: seq<Entry>, vs: seq<nat>)
    requires |es| == |vs| == 6
    ensures Posted(b, es, vs) == b + Posted(map[], es, vs)
  {
  }
}
