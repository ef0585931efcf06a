/**
 The settlement of a loan and the trade it opens (XDCxlending/order_processor.go: processOrderList,
 getLendQuantity, DoSettleBalance; XDCxlending/lendingstate/settle_balance.go: GetSettleBalance).
 */
module LendingSettlement {
  import opened Options
  import opened Sums
  import opened Division
  import opened Ledger
  import opened Matching
  import opened Quantities
  import opened BalanceOverlay
  import opened Relayers
  import L = LendingTrades

  /** common/constants.go: what the borrower's relayer pays for a match. */
  const RELAYER_LENDING_FEE := 10_000_000_000_000_000
  const RELAYER_LENDING_CANCEL_FEE := 1_000_000_000_000_000
  const DEFAULT_FEE_RATE := 100

  /** A borrower's order names its collateral; an investor's names none, which reads as zero. */
  datatype Party = Party(
    user: Address, relayer: Address, lendingToken: Token, collateral: Token, term: nat, autoTopUp: bool, hash: nat)

  /** What is fixed while orders are matched on one book; a missing price, rate, fee or decimal is zero. */
  datatype Env = Env(
    block: L.Env,
    book: nat,
    tokens: set<Token>,
    decimals: map<Token, nat>,
    owners: map<Address, Address>,
    borrowFees: map<Address, nat>,
    lendPrice: nat,
    fork: bool,
    contract: Address,
    masternodeOwner: Address)
  {
    function Decimal(t: Token): nat { if t in decimals then decimals[t] else 0 }

    function OwnerOf(relayer: Address): Address { if relayer in owners then owners[relayer] else 0 }

    function BorrowFee(relayer: Address): nat { if relayer in borrowFees then borrowFees[relayer] else 0 }
  }

  /** Trades and balances, the relayers' deposits, and the last trade id of every book. */
  datatype Loans = Loans(state: L.State, deposits: map<Address, nat>, nonces: map<nat, nat>)

  // ----- the amounts

  /** The fee of the borrower's relayer, what the borrower receives, and what the borrower locks. */
  datatype Legs = Legs(fee: nat, received: nat, locked: nat)

  /**
   GetSettleBalance; no result is a loan too small. Before the fork a borrowing maker is paid the fee instead of
   charged.
   */
  function SettleBalance(env: Env, side: Side, lending: Token, c: Collateral, feeRate: nat, q: nat): Option<Legs>
    requires env.Decimal(lending) > 0 && c.Positive()
  {
    var least := MulDiv(q, DEFAULT_FEE_RATE, BASE_FEE);
    var fee := MulDiv(q, feeRate, BASE_FEE);
    if q <= fee || q <= least || Unpaid(lending, env.lendPrice, env.Decimal(lending), fee, least, RELAYER_LENDING_FEE)
    then None
    else Some(Legs(fee, if !env.fork && side == Ask then q + fee else q - fee, BorrowerLocks(c, q)))
  }

  function Entries(
      env: Env, side: Side, borrower: Party, investor: Party, lending: Token, collateral: Token, legs: Legs,
      q: nat): seq<Entry> {
    var received := Entry(Account(lending, borrower.user), true, legs.received);
    var deposited := Entry(Account(collateral, borrower.user), false, legs.locked);
    var lent := Entry(Account(lending, investor.user), false, q);
    var charged := Entry(Account(lending, env.OwnerOf(borrower.relayer)), true, legs.fee);
    var locked := Entry(Account(collateral, LENDING_LOCK), true, legs.locked);
    if side == Bid then [received, deposited, lent, charged, locked] else [lent, received, deposited, charged, locked]
  }

  // ----- the settlement

  /** The borrower's relayer pays out of its deposit before any balance is checked. */
  function Draw(env: Env, b: Balances): Option<Balances> {
    var from := Account(XDC_NATIVE, env.contract);
    if BalanceOf(b, from) < RELAYER_LENDING_FEE then None else Some(b[from := BalanceOf(b, from) - RELAYER_LENDING_FEE])
  }

  function Reward(env: Env, b: Balances): Balances {
    Credit(b, Account(XDC_NATIVE, env.masternodeOwner), RELAYER_LENDING_FEE)
  }

  /**
   DoSettleBalance. The registration contract holds the deposits, so it can pay what a relayer pays; the order in
   which the overlay is written back does not matter.
   */
  function Settle(
      env: Env, b: Balances, deposits: map<Address, nat>, taker: Party, maker: Party, side: Side,
      es: seq<Entry>): Option<(Balances, map<Address, nat>)> {
    var relayer := if side == Bid then taker.relayer else maker.relayer;
    if env.OwnerOf(taker.relayer) == 0 || env.OwnerOf(maker.relayer) == 0 then None
    else if ValueOf(deposits, relayer) < RELAYER_LENDING_FEE then None
    else
      match Draw(env, b)
      case None => None
      case Some(drawn) =>
        match CheckAll(drawn, env.tokens, es)
        case None => None
        case Some(overlay) => Some((Reward(env, drawn) + overlay,
                                    deposits[relayer := ValueOf(deposits, relayer) - RELAYER_LENDING_FEE]))
  }

  /** What a loan needs before any balance is looked at: a collateral with its rates, and prices for both tokens. */
  predicate Priced(env: Env, lending: Token, collateral: Token) {
    var rates := env.block.RatesOf(collateral);
    && collateral != 0 && rates.deposit > 0 && rates.liquidation > 0 && rates.recall > 0
    && env.lendPrice > 0 && env.block.PriceOf(L.Pair(collateral, lending)) > 0
    && env.Decimal(lending) > 0 && env.Decimal(collateral) > 0
  }

  function CollateralOf(env: Env, lending: Token, collateral: Token): (c: Collateral)
    requires Priced(env, lending, collateral)
    ensures c.Positive()
  {
    Collateral(env.Decimal(collateral), env.block.RatesOf(collateral).deposit,
               env.block.PriceOf(L.Pair(collateral, lending)))
  }

  /** The trade that a settled match opens. */
  function NewTrade(
      env: Env, borrower: Party, investor: Party, lending: Token, maker: Order<Party>, takerTerm: nat, q: nat,
      locked: nat): L.Trade
    requires Priced(env, lending, borrower.collateral)
  {
    var rates := env.block.RatesOf(borrower.collateral);
    L.Trade(borrower.user, investor.user, borrower.relayer, lending, borrower.collateral, maker.data.term,
            maker.price % L.TWO_64,
            q, locked, MulDiv(env.block.PriceOf(L.Pair(borrower.collateral, lending)), rates.liquidation,
                              rates.deposit),
            (env.block.now + takerTerm) % L.TWO_64, borrower.autoTopUp)
  }

  function Open(env: Env, s: Loans, t: L.Trade): Loans {
    var id := ValueOf(s.nonces, env.book) + 1;
    s.(state := L.OpenTrade(s.state, L.Key(env.book, id), t), nonces := s.nonces[env.book := id])
  }

  function Lendable(env: Env, s: Loans, side: Side, borrower: Party, investor: Party, lending: Token, q: nat): Quantity
    requires Priced(env, lending, borrower.collateral)
  {
    var balance := TokenBalance(env.tokens, s.state.balances, borrower.user, borrower.collateral);
    var funds := TokenBalance(env.tokens, s.state.balances, investor.user, lending);
    LendQuantity(side, CollateralOf(env, lending, borrower.collateral),
                 if side == Bid then balance else funds, if side == Bid then funds else balance, q)
  }

  /** One round of processOrderList up to the reject decision: getLendQuantity and the opened trade. */
  function SettleLoan(env: Env, s: Loans, taker: Order<Party>, maker: Order<Party>, q: nat): Settlement<Loans> {
    var borrower := if taker.side == Bid then taker.data else maker.data;
    var investor := if taker.side == Bid then maker.data else taker.data;
    var lending, same := maker.data.lendingToken, taker.data.relayer == maker.data.relayer;
    if !Priced(env, lending, borrower.collateral) then Failure
    else if same && !CanPay(s.deposits, taker.data.relayer, 2 * RELAYER_LENDING_FEE) then Settled(s, 0, false)
    else if !same && !CanPay(s.deposits, taker.data.relayer, RELAYER_LENDING_FEE) then Settled(s, 0, false)
    else if !same && !CanPay(s.deposits, maker.data.relayer, RELAYER_LENDING_FEE) then Settled(s, 0, true)
    else
      var r := Lendable(env, s, taker.side, borrower, investor, lending, q);
      if r.traded == 0 then Settled(s, 0, r.rejectMaker)
      else
        var c := CollateralOf(env, lending, borrower.collateral);
        match SettleBalance(env, taker.side, lending, c, env.BorrowFee(borrower.relayer), r.traded)
        case None => TooSmall(r.traded, r.rejectMaker)
        case Some(legs) =>
          var es := Entries(env, taker.side, borrower, investor, lending, borrower.collateral, legs, r.traded);
          match Settle(env, s.state.balances, s.deposits, taker.data, maker.data, taker.side, es)
          case None => Failure
          case Some((balances, deposits)) =>
            var t := NewTrade(env, borrower, investor, lending, maker, taker.data.term, r.traded, legs.locked);
            Settled(Open(env, s.(state := s.state.(balances := balances), deposits := deposits), t), r.traded,
                    r.rejectMaker)
  }

  function LoanSettler(env: Env): Settler<Loans, Party> {
    (s: Loans, taker: Order<Party>, maker: Order<Party>, q: nat) => SettleLoan(env, s, taker, maker, q)
  }

  lemma LendsHonestly(env: Env)
    ensures Honest(LoanSettler(env))
  {
    forall s: Loans, taker: Order<Party>, maker: Order<Party>, q: nat
      ensures HonestAt(LoanSettler(env), s, taker, maker, q)
    {
      LendHonestly(env, s, taker, maker, q);
    }
  }

  lemma LendHonestly(env: Env, s: Loans, taker: Order<Party>, maker: Order<Party>, q: nat)
    ensures var r := SettleLoan(env, s, taker, maker, q);
      q > 0 && !r.Failure? ==> r.traded <= q && (r.rejectMaker ==> r.traded < q)
  {
    hide SettleBalance, Settle, BorrowerLocks, BorrowerLimit, Choose, Entries, NewTrade, Open;
    var borrower := if taker.side == Bid then taker.data else maker.data;
    var investor := if taker.side == Bid then maker.data else taker.data;
    var lending := maker.data.lendingToken;
    if Priced(env, lending, borrower.collateral) {
      var balance := TokenBalance(env.tokens, s.state.balances, borrower.user, borrower.collateral);
      var funds := TokenBalance(env.tokens, s.state.balances, investor.user, lending);
      LendQuantitySound(taker.side, CollateralOf(env, lending, borrower.collateral),
                        if taker.side == Bid then balance else funds, if taker.side == Bid then funds else balance, q);
    }
  }

  // ----- conservation

  lemma EntriesSum(
      env: Env, side: Side, borrower: Party, investor: Party, lending: Token, collateral: Token, legs: Legs,
      q: nat, t: Token)
    ensures var es := Entries(env, side, borrower, investor, lending, collateral, legs, q);
      && Net(es, t) == (if t == lending then legs.received + legs.fee - q else 0)
      && Written(es) == {Account(lending, borrower.user), Account(collateral, borrower.user),
                         Account(lending, investor.user),
                         Account(lending, env.OwnerOf(borrower.relayer)), Account(collateral, LENDING_LOCK)}
  {
    var es := Entries(env, side, borrower, investor, lending, collateral, legs, q);
    NetOfFive(es[0], es[1], es[2], es[3], es[4], t);
  }

  lemma NetOfFive(a: Entry, b: Entry, c: Entry, d: Entry, e: Entry, t: Token)
    ensures Net([a, b, c, d, e], t) == Signed(a, t) + Signed(b, t) + Signed(c, t) + Signed(d, t) + Signed(e, t)
    ensures Written([a, b, c, d, e]) == {a.account, b.account, c.account, d.account, e.account}
  {
    NetNone(t);
    hide Net, Written;
    NetAppend([], a, t);
    NetAppend([a], b, t);
    NetAppend([a, b], c, t);
    NetAppend([a, b, c], d, t);
    NetAppend([a, b, c, d], e, t);
    assert [] + [a] == [a] && [a] + [b] == [a, b] && [a, b] + [c] == [a, b, c];
    assert [a, b, c] + [d] == [a, b, c, d] && [a, b, c, d] + [e] == [a, b, c, d, e];
  }

  /**
   A loan is balanced exactly when it is made after the fork, or taken by a borrower, or free of a fee: before the
   fork a borrowing maker receives the fee on top, and so does its relayer's owner, which nobody pays.
   */
  lemma LoanIsBalanced(
      env: Env, side: Side, borrower: Party, investor: Party, lending: Token, c: Collateral, feeRate: nat, q: nat)
    requires env.Decimal(lending) > 0 && c.Positive()
    ensures var legs := SettleBalance(env, side, lending, c, feeRate, q);
      legs.Some? ==>
        var es := Entries(env, side, borrower, investor, lending, borrower.collateral, legs.value, q);
        && (Net(es, lending) == 0 <==> env.fork || side == Bid || legs.value.fee == 0)
        && (!env.fork && side == Ask ==> Net(es, lending) == 2 * legs.value.fee)
  {
    hide Unpaid, MulDiv, BorrowerLocks;
    var legs := SettleBalance(env, side, lending, c, feeRate, q);
    if legs.Some? {
      EntriesSum(env, side, borrower, investor, lending, borrower.collateral, legs.value, q, lending);
    }
  }

  /** A book of token 5 against collateral 6, before the fork, with a borrowing fee of one percent. */
  function OldEnv(): Env {
    Env(L.Env(100, true, map[L.Pair(6, 5) := 1], map[6 := L.Rates(150, 110, 200)]), 3, {5, 6}, map[5 := 1, 6 := 1],
        map[7 := 8], map[7 := 100], 1_000_000_000_000_000_000, false, 20, 10)
  }

  /** Before the fork a borrowing maker of 1000 pays no fee of 10 but receives it, and so does its relayer's owner. */
  lemma FeePaidTwice(borrower: Party, investor: Party)
    ensures var env, c := OldEnv(), Collateral(1, 150, 1);
      var legs := SettleBalance(env, Ask, 5, c, 100, 1000);
      && legs.Some? && legs.value.received == 1010 && legs.value.fee == 10
      && Net(Entries(env, Ask, borrower, investor, 5, borrower.collateral, legs.value, 1000), 5) == 20
  {
    assert MulDiv(1000, 100, BASE_FEE) == 10;
    assert MulDiv(10, 1_000_000_000_000_000_000, 1) == 10_000_000_000_000_000_000;
    hide Net, MulDiv, BorrowerLocks;
    LoanIsBalanced(OldEnv(), Ask, borrower, investor, 5, Collateral(1, 150, 1), 100, 1000);
  }

  /**
   No loan is for nothing: the borrower receives something, and a fee that is worth anything covers what its relayer
   pays.
   */
  lemma LoanWorthwhile(env: Env, side: Side, lending: Token, c: Collateral, feeRate: nat, q: nat)
    requires env.Decimal(lending) > 0 && c.Positive()
    ensures var legs := SettleBalance(env, side, lending, c, feeRate, q);
      legs.Some? ==>
        && legs.value.received > 0 && legs.value.locked == BorrowerLocks(c, q)
        && Worthwhile(lending, env.lendPrice, env.Decimal(lending), legs.value.fee, RELAYER_LENDING_FEE)
  {
    hide BorrowerLocks;
  }

  /**
   For every aliasing among borrower, investor and relayer owner, a settlement gives what drawing the fee, applying
   the entries one after another and then rewarding the masternode gives, exactly when the masternode owner's
   coins were not written; and the supply of a token moves by the entries and by a reward that was overwritten.
   */
  lemma SettleIsSequential(
    env: Env, b: Balances, deposits: map<Address, nat>, taker: Party, maker: Party, side: Side, es: seq<Entry>,
    t: Token)
    requires Settle(env, b, deposits, taker, maker, side, es).Some?
    ensures Draw(env, b).Some?
    ensures var after := Settle(env, b, deposits, taker, maker, side, es).value.0;
      var sequential := ApplyAll(Draw(env, b).value, env.tokens, es);
      var to := Account(XDC_NATIVE, env.masternodeOwner);
      && sequential.Some?
      && (Reward(env, sequential.value) == after <==> to !in Written(es))
      && Supply(after, t) == Supply(b, t) + Net(es, t) - if t == XDC_NATIVE && to in Written(es)
          then RELAYER_LENDING_FEE else 0
  {
    hide Net, Written, Supply;
    var drawn := Draw(env, b).value;
    var to, from := Account(XDC_NATIVE, env.masternodeOwner), Account(XDC_NATIVE, env.contract);
    OverlayIsSequential(drawn, env.tokens, es);
    ApplyMovesSupply(drawn, env.tokens, es, t);
    var overlay := CheckAll(drawn, env.tokens, es).value;
    RewardUnder(env, drawn, overlay);
    SupplyWrite(b, from, BalanceOf(b, from) - RELAYER_LENDING_FEE, t);
    SupplyUnder(drawn, overlay, to, BalanceOf(drawn, to) + RELAYER_LENDING_FEE, t);
  }

  const COIN := 1_000_000_000_000_000_000

  /** A book of the native coin against collateral 6, worth one coin each, with one relayer and no fees. */
  function CoinEnv(): Env {
    Env(L.Env(100, true, map[L.Pair(6, XDC_NATIVE) := COIN], map[6 := L.Rates(150, 110, 200)]), 3, {6},
        map[XDC_NATIVE := COIN, 6 := 1], map[7 := 8], map[], COIN, true, 20, 10)
  }

  /** The owner of the masternode holds 100 coins, a borrower 150 units, and the relayer has deposited 30,000 coins. */
  function CoinLoans(): Loans {
    Loans(L.State(map[Account(6, 31) := 150, Account(XDC_NATIVE, 10) := 100 * COIN,
                      Account(XDC_NATIVE, 20) := 30_000 * COIN],
                  map[], {}, multiset{}, {}),
          map[7 := 30_000 * COIN], map[])
  }

  function CoinBorrower(): Order<Party> { Order(0, Bid, 4, 100 * COIN, Party(31, 7, XDC_NATIVE, 6, 60, false, 0)) }

  function CoinInvestor(): Order<Party> { Order(1, Ask, 4, 100 * COIN, Party(10, 7, XDC_NATIVE, 0, 60, false, 0)) }

  lemma CoinAmounts()
    ensures Priced(CoinEnv(), XDC_NATIVE, 6)
    ensures var env, c := CoinEnv(), CollateralOf(CoinEnv(), XDC_NATIVE, 6);
      && Lendable(env, CoinLoans(), Bid, CoinBorrower().data, CoinInvestor().data, XDC_NATIVE, 100 * COIN) ==
        Quantity(100 * COIN, false)
      && SettleBalance(env, Bid, XDC_NATIVE, c, 0, 100 * COIN) == Some(Legs(0, 100 * COIN, 150))
  {
    assert MulDiv(100 * COIN, DEFAULT_FEE_RATE, BASE_FEE) == COIN;
    assert MulDiv(100 * COIN, 0, BASE_FEE) == 0;
  }

  /**
   The owner of the masternode lends 100 coins against 150 units: the loan settles, and the masternode's reward is
   lost.
   */
  lemma RewardLost()
    ensures var env, s := CoinEnv(), CoinLoans();
      var r := SettleLoan(env, s, CoinBorrower(), CoinInvestor(), 100 * COIN);
      && CoinInvestor().data.user == env.masternodeOwner && r.Settled? && r.traded == 100 * COIN
      && Supply(r.state.state.balances, XDC_NATIVE) == Supply(s.state.balances, XDC_NATIVE) - RELAYER_LENDING_FEE
  {
    hide CheckAll, Supply, Net, Written, SettleBalance, Lendable, BorrowerLocks, MulDiv;
    CoinAmounts();
    var env, s, legs := CoinEnv(), CoinLoans(), Legs(0, 100 * COIN, 150);
    var borrower, investor := CoinBorrower().data, CoinInvestor().data;
    var es := Entries(env, Bid, borrower, investor, XDC_NATIVE, 6, legs, 100 * COIN);
    LoanChecks(env, Draw(env, s.state.balances).value, Bid, borrower, investor, XDC_NATIVE, 6, legs, 100 * COIN);
    SettleIsSequential(env, s.state.balances, s.deposits, borrower, investor, Bid, es, XDC_NATIVE);
    EntriesSum(env, Bid, borrower, investor, XDC_NATIVE, 6, legs, 100 * COIN, XDC_NATIVE);
  }

  lemma RewardUnder(env: Env, drawn: Balances, overlay: Balances)
    ensures Reward(env, drawn + overlay) == Reward(env, drawn) + overlay <==>
      Account(XDC_NATIVE, env.masternodeOwner) !in overlay
  {
    var to := Account(XDC_NATIVE, env.masternodeOwner);
    if to in overlay {
      assert Reward(env, drawn + overlay)[to] != (Reward(env, drawn) + overlay)[to];
    } else {
      assert Reward(env, drawn + overlay) == Reward(env, drawn) + overlay;
    }
  }

  // ----- the collateral lock

  /** The lock account takes part in no settlement but as the keeper of collateral. */
  ghost predicate LockApart(env: Env) {
    && env.contract != LENDING_LOCK && env.masternodeOwner != LENDING_LOCK
    && forall r | r in env.owners :: env.owners[r] != LENDING_LOCK
  }

  predicate Outsider(p: Party) { p.user != LENDING_LOCK }

  lemma NetAtOfFive(a: Entry, b: Entry, c: Entry, d: Entry, e: Entry, x: Account)
    ensures NetAt([a, b, c, d, e], x) == At(a, x) + At(b, x) + At(c, x) + At(d, x) + At(e, x)
  {
    hide NetAt;
    NoneAt(x);
    NetAtAppend([], a, x);
    NetAtAppend([a], b, x);
    NetAtAppend([a, b], c, x);
    NetAtAppend([a, b, c], d, x);
    NetAtAppend([a, b, c, d], e, x);
    assert [] + [a] == [a] && [a] + [b] == [a, b] && [a, b] + [c] == [a, b, c];
    assert [a, b, c] + [d] == [a, b, c, d] && [a, b, c, d] + [e] == [a, b, c, d, e];
  }

  /** What the fee accounts move by: a written account of the masternode's owner forgets the reward. */
  function RewardMove(env: Env, es: seq<Entry>, a: Account): int {
    (if a == Account(XDC_NATIVE, env.masternodeOwner) && a !in Written(es) then RELAYER_LENDING_FEE else 0)
    - (if a == Account(XDC_NATIVE, env.contract) then RELAYER_LENDING_FEE else 0)
  }

  /** What a loan moves into one account. */
  function LoanMoves(
      env: Env, borrower: Party, investor: Party, lending: Token, collateral: Token, legs: Legs, q: nat,
      a: Account): int {
    (if a == Account(lending, borrower.user) then legs.received else 0)
    - (if a == Account(collateral, borrower.user) then legs.locked else 0)
    - (if a == Account(lending, investor.user) then q else 0)
    + (if a == Account(lending, env.OwnerOf(borrower.relayer)) then legs.fee else 0)
    + (if a == Account(collateral, LENDING_LOCK) then legs.locked else 0)
  }

  /**
   What every account gains, for every aliasing: the borrower receives the loan and hands over the collateral, which
   the lock account receives, the investor hands over the quantity, the owner of the borrower's relayer earns the fee,
   the contract pays, and the masternode's owner is paid if its coins were not written.
   */
  lemma SettledBalances(
      env: Env, b: Balances, deposits: map<Address, nat>, taker: Party, maker: Party, side: Side,
      lending: Token, collateral: Token, legs: Legs, q: nat, a: Account)
    requires var borrower, investor := if side == Bid then taker else maker, if side == Bid then maker else taker;
      Settle(env, b, deposits, taker, maker, side,
             Entries(env, side, borrower, investor, lending, collateral, legs, q)).Some?
    ensures var borrower, investor := if side == Bid then taker else maker, if side == Bid then maker else taker;
      var es := Entries(env, side, borrower, investor, lending, collateral, legs, q);
      BalanceOf(Settle(env, b, deposits, taker, maker, side, es).value.0, a) ==
        BalanceOf(b, a) + LoanMoves(env, borrower, investor, lending, collateral, legs, q, a) + RewardMove(env, es, a)
  {
    hide Entries, LoanMoves, CheckAll, ApplyAll, NetAt, Written;
    var borrower, investor := if side == Bid then taker else maker, if side == Bid then maker else taker;
    var es := Entries(env, side, borrower, investor, lending, collateral, legs, q);
    var drawn := Draw(env, b).value;
    OverlayIsSequential(drawn, env.tokens, es);
    ApplyMovesAccount(drawn, env.tokens, es, a);
    EntriesAt(env, side, borrower, investor, lending, collateral, legs, q, a);
    RewardedAt(env, b, drawn, CheckAll(drawn, env.tokens, es).value, a);
  }

  lemma EntriesAt(
      env: Env, side: Side, borrower: Party, investor: Party, lending: Token, collateral: Token, legs: Legs, q: nat,
      a: Account)
    ensures NetAt(Entries(env, side, borrower, investor, lending, collateral, legs, q), a) ==
      LoanMoves(env, borrower, investor, lending, collateral, legs, q, a)
  {
    var es := Entries(env, side, borrower, investor, lending, collateral, legs, q);
    NetAtOfFive(es[0], es[1], es[2], es[3], es[4], a);
    hide NetAt;
  }

  lemma RewardedAt(env: Env, b: Balances, drawn: Balances, overlay: Balances, a: Account)
    requires Draw(env, b) == Some(drawn)
    ensures BalanceOf(Reward(env, drawn) + overlay, a) ==
      BalanceOf(drawn + overlay, a) + if a == Account(XDC_NATIVE, env.masternodeOwner) && a !in overlay
                                      then RELAYER_LENDING_FEE else 0
    ensures BalanceOf(drawn, a) == BalanceOf(b, a)
      - if a == Account(XDC_NATIVE, env.contract) then RELAYER_LENDING_FEE else 0
  {
  }

  /** The deposit of the borrower's relayer stays above what is locked, and no other deposit moves. */
  lemma DepositsStayLocked(env: Env, s: Loans, taker: Order<Party>, maker: Order<Party>, q: nat, relayer: Address)
    ensures var r := SettleLoan(env, s, taker, maker, q);
      var payer := (if taker.side == Bid then taker else maker).data.relayer;
      r.Settled? ==>
        && (r.traded > 0 && relayer in {taker.data.relayer, maker.data.relayer} ==>
            ValueOf(r.state.deposits, relayer) >= RELAYER_LOCKED_FUND)
        && (r.traded == 0 || relayer != payer ==> ValueOf(r.state.deposits, relayer) == ValueOf(s.deposits, relayer))
  {
    hide SettleBalance, CheckAll, Entries, Lendable, NewTrade, Draw, Reward;
  }

  lemma LockReceives(
      env: Env, side: Side, borrower: Party, investor: Party, lending: Token, collateral: Token, legs: Legs,
      q: nat, t: Token)
    requires LockApart(env) && Outsider(borrower) && Outsider(investor)
    ensures NetAt(Entries(env, side, borrower, investor, lending, collateral, legs, q), Account(t, LENDING_LOCK)) ==
      if t == collateral then legs.locked else 0
  {
    hide NetAt;
    var es := Entries(env, side, borrower, investor, lending, collateral, legs, q);
    NetAtOfFive(es[0], es[1], es[2], es[3], es[4], Account(t, LENDING_LOCK));
  }

  /** Settling a loan puts exactly the collateral of the new trade into the lock account. */
  lemma SettleLocks(env: Env, b: Balances, deposits: map<Address, nat>, taker: Party, maker: Party, side: Side,
                    lending: Token, collateral: Token, legs: Legs, q: nat)
    requires LockApart(env) && Outsider(taker) && Outsider(maker)
    requires var borrower, investor := if side == Bid then taker else maker, if side == Bid then maker else taker;
      Settle(env, b, deposits, taker, maker, side,
             Entries(env, side, borrower, investor, lending, collateral, legs, q)).Some?
    ensures var borrower, investor := if side == Bid then taker else maker, if side == Bid then maker else taker;
      var es := Entries(env, side, borrower, investor, lending, collateral, legs, q);
      L.LockPays(b, Settle(env, b, deposits, taker, maker, side, es).value.0, collateral, -(legs.locked as int))
  {
    hide Entries;
    var borrower, investor := if side == Bid then taker else maker, if side == Bid then maker else taker;
    var es := Entries(env, side, borrower, investor, lending, collateral, legs, q);
    var drawn := Draw(env, b).value;
    OverlayIsSequential(drawn, env.tokens, es);
    var overlay := CheckAll(drawn, env.tokens, es).value;
    forall t
      ensures BalanceOf(Reward(env, drawn) + overlay, Account(t, LENDING_LOCK)) ==
        BalanceOf(b, Account(t, LENDING_LOCK)) + if t == collateral then legs.locked else 0
    {
      LockReceives(env, side, borrower, investor, lending, collateral, legs, q, t);
      ApplyMovesAccount(drawn, env.tokens, es, Account(t, LENDING_LOCK));
      assert BalanceOf(Reward(env, drawn) + overlay, Account(t, LENDING_LOCK)) ==
        BalanceOf(drawn + overlay, Account(t, LENDING_LOCK));
    }
  }

  /**
   A new trade can be liquidated only below the price it was opened at, exactly if the liquidation rate is below the
   deposit rate.
   */
  lemma NewTradeStartsSafe(
      env: Env, borrower: Party, investor: Party, lending: Token, maker: Order<Party>, takerTerm: nat, q: nat,
      locked: nat)
    requires Priced(env, lending, borrower.collateral)
    ensures var t := NewTrade(env, borrower, investor, lending, maker, takerTerm, q, locked);
      var rates := env.block.RatesOf(borrower.collateral);
      t.liqPrice < env.block.PriceOf(t.Market()) <==> rates.liquidation < rates.deposit
  {
    var price, rates := env.block.PriceOf(L.Pair(borrower.collateral, lending)), env.block.RatesOf(borrower.collateral);
    Below(price * rates.liquidation, rates.deposit, price);
    MulOrder(rates.liquidation, rates.deposit, price);
  }

  /** What a settled loan is: nothing traded and nothing changed, or balances settled and a trade opened. */
  lemma LoanOpens(
      env: Env, s: Loans, taker: Order<Party>, maker: Order<Party>, q: nat) returns (t: L.Trade, settled: Loans)
    requires LockApart(env) && Outsider(taker.data) && Outsider(maker.data)
    ensures var r := SettleLoan(env, s, taker, maker, q);
      r.Settled? ==>
        && (r.traded == 0 ==> r.state == s)
        && (r.traded > 0 ==>
              && r.state == Open(env, settled, t)
              && settled.state == s.state.(balances := settled.state.balances) && settled.nonces == s.nonces
              && t.borrower == (if taker.side == Bid then taker else maker).data.user
              && t.investor == (if taker.side == Bid then maker else taker).data.user
              && t.borrower != LENDING_LOCK && t.investor != LENDING_LOCK && t.amount == r.traded
              && t.liqTime == (env.block.now + taker.data.term) % L.TWO_64
              && t.term == maker.data.term && t.interest == maker.price % L.TWO_64
              && t.lendingToken == maker.data.lendingToken
              && L.LockPays(s.state.balances, settled.state.balances, t.collateralToken, -(t.locked as int)))
  {
    hide SettleBalance, Settle, Entries, MulDiv, CanPay, L.LockPays, Choose;
    var borrower := if taker.side == Bid then taker.data else maker.data;
    var investor := if taker.side == Bid then maker.data else taker.data;
    var lending := maker.data.lendingToken;
    var r := SettleLoan(env, s, taker, maker, q);
    settled := s;
    t := L.Trade(0, 0, 0, 0, 0, 0, 0, 0, 0, 0, 0, false);
    if r.Settled? && r.traded > 0 {
      var n := Lendable(env, s, taker.side, borrower, investor, lending, q).traded;
      var c := CollateralOf(env, lending, borrower.collateral);
      var legs := SettleBalance(env, taker.side, lending, c, env.BorrowFee(borrower.relayer), n).value;
      var es := Entries(env, taker.side, borrower, investor, lending, borrower.collateral, legs, n);
      SettleLocks(env, s.state.balances, s.deposits, taker.data, maker.data, taker.side, lending, borrower.collateral,
                  legs, n);
      var (balances, deposits) := Settle(env, s.state.balances, s.deposits, taker.data, maker.data, taker.side,
                                         es).value;
      settled := s.(state := s.state.(balances := balances), deposits := deposits);
      t := NewTrade(env, borrower, investor, lending, maker, taker.data.term, n, legs.locked);
    }
  }

  /**
   A settled loan from end to end: every account moves by the loan and the fees, the borrower receives something and
   locks what the collateral rules ask for, the fee is worth nothing or more than the relayer pays, the relayers keep
   their locked funds, and the trade that is opened carries these terms and starts below the collateral price if the
   rates are in order.
   */
  lemma LoanOutcome(
      env: Env, s: Loans, taker: Order<Party>, maker: Order<Party>, q: nat, a: Account) returns (legs: Legs, t: L.Trade)
    requires LockApart(env) && Outsider(taker.data) && Outsider(maker.data)
    ensures var r := SettleLoan(env, s, taker, maker, q);
      var borrower := if taker.side == Bid then taker.data else maker.data;
      var investor := if taker.side == Bid then maker.data else taker.data;
      var lending := maker.data.lendingToken;
      r.Settled? && r.traded > 0 ==>
        && Priced(env, lending, borrower.collateral)
        && var es := Entries(env, taker.side, borrower, investor, lending, borrower.collateral, legs, r.traded);
        && BalanceOf(r.state.state.balances, a) ==
             BalanceOf(s.state.balances, a)
             + LoanMoves(env, borrower, investor, lending, borrower.collateral, legs, r.traded, a)
               + RewardMove(env, es, a)
        && legs.received > 0 && legs.locked == BorrowerLocks(CollateralOf(env, lending, borrower.collateral), r.traded)
        && legs.fee == MulDiv(r.traded, env.BorrowFee(borrower.relayer), BASE_FEE)
        && legs.received == (if !env.fork && taker.side == Ask then r.traded + legs.fee else r.traded - legs.fee)
        && Worthwhile(lending, env.lendPrice, env.Decimal(lending), legs.fee, RELAYER_LENDING_FEE)
        && (forall x ::
            if x in {taker.data.relayer, maker.data.relayer} then ValueOf(r.state.deposits, x) >= RELAYER_LOCKED_FUND
                        else ValueOf(r.state.deposits, x) == ValueOf(s.deposits, x))
        && L.Key(env.book, ValueOf(s.nonces, env.book) + 1) in r.state.state.trades
        && r.state.state.trades[L.Key(env.book, ValueOf(s.nonces, env.book) + 1)] == t
        && t == NewTrade(env, borrower, investor, lending, maker, taker.data.term, r.traded, legs.locked)
        && (t.liqPrice < env.block.PriceOf(t.Market()) <==>
              env.block.RatesOf(t.collateralToken).liquidation < env.block.RatesOf(t.collateralToken).deposit)
  {
    hide SettleLoan, SettleBalance, Settle, Entries, MulDiv, RewardMove, LoanMoves, Worthwhile, BorrowerLocks;
    var borrower := if taker.side == Bid then taker.data else maker.data;
    var investor := if taker.side == Bid then maker.data else taker.data;
    var lending := maker.data.lendingToken;
    var r := SettleLoan(env, s, taker, maker, q);
    legs, t := Legs(0, 0, 0), L.Trade(0, 0, 0, 0, 0, 0, 0, 0, 0, 0, 0, false);
    if r.Settled? && r.traded > 0 {
      legs, t := LoanSettledBy(env, s, taker, maker, q);
      var c, rate := CollateralOf(env, lending, borrower.collateral), env.BorrowFee(borrower.relayer);
      LoanWorthwhile(env, taker.side, lending, c, rate, r.traded);
      LegsOf(env, taker.side, lending, c, rate, r.traded);
      SettledBalances(env, s.state.balances, s.deposits, taker.data, maker.data, taker.side, lending,
                      borrower.collateral, legs, r.traded, a);
      NewTradeStartsSafe(env, borrower, investor, lending, maker, taker.data.term, r.traded, legs.locked);
      forall x ensures if x in {taker.data.relayer, maker.data.relayer}
                       then ValueOf(r.state.deposits, x) >= RELAYER_LOCKED_FUND
        else ValueOf(r.state.deposits, x) == ValueOf(s.deposits, x) {
        DepositsStayLocked(env, s, taker, maker, q, x);
      }
    }
  }

  lemma LegsOf(env: Env, side: Side, lending: Token, c: Collateral, rate: nat, q: nat)
    requires env.Decimal(lending) > 0 && c.Positive()
    ensures var legs := SettleBalance(env, side, lending, c, rate, q);
      legs.Some? ==>
        && legs.value.fee == MulDiv(q, rate, BASE_FEE)
        && legs.value.received == if !env.fork && side == Ask then q + legs.value.fee else q - legs.value.fee
  {
    hide Unpaid, BorrowerLocks, MulDiv;
  }

  /** The amounts and the trade of a settled loan. */
  lemma LoanSettledBy(
      env: Env, s: Loans, taker: Order<Party>, maker: Order<Party>, q: nat) returns (legs: Legs, t: L.Trade)
    requires var r := SettleLoan(env, s, taker, maker, q); r.Settled? && r.traded > 0
    ensures var r := SettleLoan(env, s, taker, maker, q);
      var borrower := if taker.side == Bid then taker.data else maker.data;
      var investor := if taker.side == Bid then maker.data else taker.data;
      var lending := maker.data.lendingToken;
      && Priced(env, lending, borrower.collateral)
      && SettleBalance(env, taker.side, lending, CollateralOf(env, lending, borrower.collateral),
                       env.BorrowFee(borrower.relayer), r.traded)
         == Some(legs)
      && Settle(env, s.state.balances, s.deposits, taker.data, maker.data, taker.side,
                Entries(env, taker.side, borrower, investor, lending, borrower.collateral, legs, r.traded))
         == Some((r.state.state.balances, r.state.deposits))
      && t == NewTrade(env, borrower, investor, lending, maker, taker.data.term, r.traded, legs.locked)
      && L.Key(env.book, ValueOf(s.nonces, env.book) + 1) in r.state.state.trades
      && r.state.state.trades[L.Key(env.book, ValueOf(s.nonces, env.book) + 1)] == t
  {
    hide SettleBalance, Settle, Entries, CanPay, Choose, BorrowerLimit, BorrowerLocks;
    var borrower := if taker.side == Bid then taker.data else maker.data;
    var investor := if taker.side == Bid then maker.data else taker.data;
    var lending := maker.data.lendingToken;
    var n := SettleLoan(env, s, taker, maker, q).traded;
    legs := SettleBalance(env, taker.side, lending, CollateralOf(env, lending, borrower.collateral),
                          env.BorrowFee(borrower.relayer), n).value;
    t := NewTrade(env, borrower, investor, lending, maker, taker.data.term, n, legs.locked);
  }

  // ----- when a loan cannot fail

  /** No balance of the two tokens comes near the width of a word. */
  ghost predicate Room(b: Balances, lending: Token, collateral: Token, legs: Legs) {
    && (lending != XDC_NATIVE ==> forall a: Account | a.token == lending ::
          BalanceOf(b, a) + legs.received + legs.fee + (if collateral == lending then legs.locked else 0) < WORD)
    && (collateral != XDC_NATIVE && collateral != lending ==> forall a: Account | a.token == collateral ::
          BalanceOf(b, a) + legs.locked < WORD)
  }

  /** A borrower who lends to itself in the token it locks pays the fee and the collateral out of one balance. */
  predicate SelfLoan(borrower: Party, investor: Party, lending: Token, collateral: Token) {
    borrower.user == investor.user && lending == collateral
  }

  /**
   With known tokens and room, the balances of a loan that borrower and investor can each afford settle, except
   for a self-loan that cannot afford the two together.
   */
  lemma LoanChecks(
      env: Env, b: Balances, side: Side, borrower: Party, investor: Party, lending: Token, collateral: Token,
      legs: Legs, q: nat)
    requires Known(env.tokens, lending) && Known(env.tokens, collateral) && Room(b, lending, collateral, legs)
    requires BalanceOf(b, Account(collateral, borrower.user)) >= legs.locked
      && BalanceOf(b, Account(lending, investor.user)) >= q
    ensures CheckAll(b, env.tokens, Entries(env, side, borrower, investor, lending, collateral, legs, q)).Some? <==>
      (SelfLoan(borrower, investor, lending, collateral) ==>
       BalanceOf(b, Account(lending, borrower.user)) + legs.received >= q + legs.locked)
  {
    var es := Entries(env, side, borrower, investor, lending, collateral, legs, q);
    if SelfLoan(borrower, investor, lending, collateral)
      && BalanceOf(b, Account(lending, borrower.user)) + legs.received < q + legs.locked {
      SelfLoanFails(b, env.tokens, es, Account(lending, borrower.user));
    } else {
      var overlay := PartiesCheck(env, b, side, borrower, investor, lending, collateral, legs, q);
      hide CheckAll;
      var charged := CheckNext(b, env.tokens, es[..3], overlay, es[3]);
      var done := CheckNext(b, env.tokens, es[..3] + [es[3]], charged, es[4]);
      assert es == es[..3] + [es[3]] + [es[4]];
    }
  }

  /** Three entries that together take more than there is cannot all pass. */
  lemma SelfLoanFails(b: Balances, tokens: set<Token>, es: seq<Entry>, a: Account)
    requires |es| == 5 && BalanceOf(b, a) + At(es[0], a) + At(es[1], a) + At(es[2], a) < 0
    ensures CheckAll(b, tokens, es).None?
  {
    hide CheckAll, ApplyAll, NetAt;
    var three := es[..3];
    assert three == [] + [es[0]] + [es[1]] + [es[2]];
    NoneAt(a);
    NetAtAppend([], es[0], a);
    NetAtAppend([] + [es[0]], es[1], a);
    NetAtAppend([] + [es[0]] + [es[1]], es[2], a);
    ApplyMovesAccount(b, tokens, three, a);
    OverlayIsSequential(b, tokens, three);
    FailedEarly(b, tokens, es, 3);
  }

  /** The entries of borrower and investor. */
  lemma PartiesCheck(
      env: Env, b: Balances, side: Side, borrower: Party, investor: Party, lending: Token, collateral: Token,
      legs: Legs, q: nat)
    returns (overlay: Balances)
    requires Known(env.tokens, lending) && Known(env.tokens, collateral) && Room(b, lending, collateral, legs)
    requires BalanceOf(b, Account(collateral, borrower.user)) >= legs.locked
      && BalanceOf(b, Account(lending, investor.user)) >= q
    requires SelfLoan(borrower, investor, lending, collateral) ==>
      BalanceOf(b, Account(lending, borrower.user)) + legs.received >= q + legs.locked
    ensures CheckAll(b, env.tokens, Entries(env, side, borrower, investor, lending, collateral, legs, q)[..3]) ==
      Some(overlay)
    ensures forall a: Account ::
      Read(b, overlay, a) <= BalanceOf(b, a) + if a.token == lending then legs.received else 0
  {
    var es := Entries(env, side, borrower, investor, lending, collateral, legs, q);
    assert es[..3] == [es[0], es[1], es[2]];
    if side == Bid {
      overlay := BorrowerFirst(b, env.tokens, es[0], es[1], es[2]);
    } else {
      overlay := InvestorFirst(b, env.tokens, es[1], es[2], es[0]);
    }
  }

  lemma BorrowerFirst(
      b: Balances, tokens: set<Token>, received: Entry, deposited: Entry, lent: Entry) returns (overlay: Balances)
    requires received.credit && !deposited.credit && !lent.credit
    requires Accepts(tokens, received, BalanceOf(b, received.account)) && Known(tokens, deposited.account.token)
      && Known(tokens, lent.account.token)
    requires BalanceOf(b, deposited.account) >= deposited.amount && BalanceOf(b, lent.account) >= lent.amount
    requires lent.account == deposited.account ==>
      BalanceOf(b, lent.account) + (if received.account == lent.account then received.amount else 0) >= lent.amount
        + deposited.amount
    ensures CheckAll(b, tokens, [received, deposited, lent]) == Some(overlay)
    ensures forall a: Account ::
      Read(b, overlay, a) <= BalanceOf(b, a) + if a.token == received.account.token then received.amount else 0
  {
    CheckNone(b, tokens);
    hide CheckAll;
    var one := CheckNext(b, tokens, [], map[], received);
    var two := CheckNext(b, tokens, [] + [received], one, deposited);
    overlay := CheckNext(b, tokens, [] + [received] + [deposited], two, lent);
    assert [received, deposited, lent] == [] + [received] + [deposited] + [lent];
  }

  lemma InvestorFirst(
      b: Balances, tokens: set<Token>, received: Entry, deposited: Entry, lent: Entry) returns (overlay: Balances)
    requires received.credit && !deposited.credit && !lent.credit
    requires Accepts(tokens, received, BalanceOf(b, received.account)) && Known(tokens, deposited.account.token)
      && Known(tokens, lent.account.token)
    requires BalanceOf(b, deposited.account) >= deposited.amount && BalanceOf(b, lent.account) >= lent.amount
    requires lent.account == deposited.account ==>
      BalanceOf(b, lent.account) + (if received.account == lent.account then received.amount else 0) >= lent.amount
        + deposited.amount
    ensures CheckAll(b, tokens, [lent, received, deposited]) == Some(overlay)
    ensures forall a: Account ::
      Read(b, overlay, a) <= BalanceOf(b, a) + if a.token == received.account.token then received.amount else 0
  {
    CheckNone(b, tokens);
    hide CheckAll;
    var one := CheckNext(b, tokens, [], map[], lent);
    var two := CheckNext(b, tokens, [] + [lent], one, received);
    overlay := CheckNext(b, tokens, [] + [lent] + [received], two, deposited);
    assert [lent, received, deposited] == [] + [lent] + [received] + [deposited];
  }

  /** The supply of every token is far below the width of a word. */
  ghost predicate Ample(b: Balances) {
    forall t: Token | t != XDC_NATIVE :: 5 * Supply(b, t) < WORD
  }

  /**
   What is known of a taker and a maker before they meet: the borrower's collateral is priced, both tokens exist,
   both relayers have an owner, the fee is not paid twice, the registration contract is not a party, and nobody
   borrows from itself against the lent token.
   */
  predicate Willing(env: Env, taker: Order<Party>, maker: Party) {
    var borrower := if taker.side == Bid then taker.data else maker;
    && Priced(env, maker.lendingToken, borrower.collateral)
    && Known(env.tokens, maker.lendingToken) && Known(env.tokens, borrower.collateral)
    && env.OwnerOf(taker.data.relayer) != 0 && env.OwnerOf(maker.relayer) != 0
    && (env.fork || taker.side == Bid || env.BorrowFee(borrower.relayer) == 0)
    && taker.data.user != env.contract && maker.user != env.contract
    && !SelfLoan(taker.data, maker, maker.lendingToken, borrower.collateral)
  }

  lemma AmpleRoom(
      b: Balances, lending: Token, collateral: Token, legs: Legs, borrower: Address, investor: Address, q: nat)
    requires Ample(b) && BalanceOf(b, Account(collateral, borrower)) >= legs.locked
      && BalanceOf(b, Account(lending, investor)) >= q
    requires legs.fee <= q && legs.received <= q + legs.fee
    ensures Room(b, lending, collateral, legs)
  {
    BalanceAtMostSupply(b, Account(lending, investor));
    BalanceAtMostSupply(b, Account(collateral, borrower));
    forall a: Account ensures BalanceOf(b, a) <= Supply(b, a.token) {
      BalanceAtMostSupply(b, a);
    }
    hide Supply;
  }

  /** What a lendable quantity is: within what borrower and investor have. */
  lemma LendableAffords(env: Env, s: Loans, side: Side, borrower: Party, investor: Party, lending: Token, q: nat)
    requires Priced(env, lending, borrower.collateral)
    ensures var r := Lendable(env, s, side, borrower, investor, lending, q);
      r.traded > 0 ==>
        && BorrowerLocks(CollateralOf(env, lending, borrower.collateral), r.traded)
           <= TokenBalance(env.tokens, s.state.balances, borrower.user, borrower.collateral)
        && r.traded <= TokenBalance(env.tokens, s.state.balances, investor.user, lending)
  {
    hide BorrowerLocks, BorrowerLimit, Choose;
    var balance := TokenBalance(env.tokens, s.state.balances, borrower.user, borrower.collateral);
    var funds := TokenBalance(env.tokens, s.state.balances, investor.user, lending);
    LendQuantitySound(side, CollateralOf(env, lending, borrower.collateral),
                      if side == Bid then balance else funds, if side == Bid then funds else balance, q);
  }

  /** Settling a willing taker and maker in a solvent state with ample supplies always succeeds. */
  lemma WillingSettles(
      env: Env, s: Loans, taker: Party, maker: Party, side: Side, lending: Token, collateral: Token, legs: Legs, q: nat)
    requires Known(env.tokens, lending) && Known(env.tokens, collateral)
    requires env.OwnerOf(taker.relayer) != 0 && env.OwnerOf(maker.relayer) != 0
    requires taker.user != env.contract && maker.user != env.contract
    requires legs.fee <= q && legs.received <= q + legs.fee && Solvent(env.contract, s.state.balances, s.deposits)
      && Ample(s.state.balances)
    requires ValueOf(s.deposits, if side == Bid then taker.relayer else maker.relayer) >= RELAYER_LENDING_FEE
    requires var borrower, investor := if side == Bid then taker else maker, if side == Bid then maker else taker;
      && BalanceOf(s.state.balances, Account(collateral, borrower.user)) >= legs.locked
      && BalanceOf(s.state.balances, Account(lending, investor.user)) >= q
      && !SelfLoan(borrower, investor, lending, collateral)
    ensures var borrower, investor := if side == Bid then taker else maker, if side == Bid then maker else taker;
      Settle(env, s.state.balances, s.deposits, taker, maker, side,
             Entries(env, side, borrower, investor, lending, collateral, legs, q)).Some?
  {
    hide CheckAll, Entries, TotalOf, Ample, Room;
    var b := s.state.balances;
    var borrower, investor := if side == Bid then taker else maker, if side == Bid then maker else taker;
    ValueAtMostTotal<Address>(s.deposits, if side == Bid then taker.relayer else maker.relayer);
    var drawn := Draw(env, b).value;
    AmpleRoom(b, lending, collateral, legs, borrower.user, investor.user, q);
    RoomDrawn(b, drawn, lending, collateral, legs);
    LoanChecks(env, drawn, side, borrower, investor, lending, collateral, legs, q);
  }

  lemma RoomDrawn(b: Balances, drawn: Balances, lending: Token, collateral: Token, legs: Legs)
    requires Room(b, lending, collateral, legs) && forall a: Account :: BalanceOf(drawn, a) <= BalanceOf(b, a)
    ensures Room(drawn, lending, collateral, legs)
  {
  }

  /**
   A loan between a willing taker and maker never fails, so no order is undone for it; and it keeps the supply of
   every token, of the native coin unless the reward may be written over, and the contract solvent.
   */
  lemma LoanNeverFails(env: Env, s: Loans, taker: Order<Party>, maker: Order<Party>, q: nat)
    requires Willing(env, taker, maker.data) && Solvent(env.contract, s.state.balances, s.deposits)
      && Ample(s.state.balances)
    ensures var r := SettleLoan(env, s, taker, maker, q);
      && !r.Failure?
      && (r.Settled? ==>
            && (forall t: Token | t != XDC_NATIVE || RewardApart(env, taker.data, maker.data) ::
                  Supply(r.state.state.balances, t) == Supply(s.state.balances, t))
            && Solvent(env.contract, r.state.state.balances, r.state.deposits) && Ample(r.state.state.balances))
  {
    hide Settle, Entries, Supply, Solvent, MulDiv, BorrowerLocks, Choose, SettleBalance, Lendable, Open, NewTrade,
         SelfLoan;
    var borrower := if taker.side == Bid then taker.data else maker.data;
    var investor := if taker.side == Bid then maker.data else taker.data;
    var lending := maker.data.lendingToken;
    var n := Lendable(env, s, taker.side, borrower, investor, lending, q).traded;
    var c := CollateralOf(env, lending, borrower.collateral);
    var rate := env.BorrowFee(borrower.relayer);
    var legs := SettleBalance(env, taker.side, lending, c, rate, n);
    SelfLoanSymmetric(borrower, investor, lending, borrower.collateral);
    if legs.Some? && n > 0 && ValueOf(s.deposits, borrower.relayer) >= RELAYER_LENDING_FEE {
      LendableAffords(env, s, taker.side, borrower, investor, lending, q);
      LegsBounded(env, taker.side, lending, c, rate, n);
      WillingSettles(env, s, taker.data, maker.data, taker.side, lending, borrower.collateral, legs.value, n);
      LoanConserves(env, s, taker.data, maker.data, taker.side, lending, borrower.collateral, legs.value, n);
      if SettleLoan(env, s, taker, maker, q).Settled? && SettleLoan(env, s, taker, maker, q).traded > 0 {
        var l, t := LoanSettledBy(env, s, taker, maker, q);
      }
    }
  }

  lemma SelfLoanSymmetric(a: Party, b: Party, lending: Token, collateral: Token)
    ensures SelfLoan(a, b, lending, collateral) == SelfLoan(b, a, lending, collateral)
  {
  }

  lemma LegsBounded(env: Env, side: Side, lending: Token, c: Collateral, rate: nat, q: nat)
    requires env.Decimal(lending) > 0 && c.Positive()
    ensures var legs := SettleBalance(env, side, lending, c, rate, q);
      legs.Some? ==>
        && legs.value.fee <= q && legs.value.received <= q + legs.value.fee && legs.value.locked == BorrowerLocks(c, q)
        && (env.fork || side == Bid || rate == 0 ==> legs.value.received + legs.value.fee == q)
  {
    hide BorrowerLocks, Unpaid;
  }

  /** The masternode's owner takes no part in a loan, neither as a user nor as the owner of a relayer. */
  predicate RewardApart(env: Env, taker: Party, maker: Party) {
    env.masternodeOwner !in {taker.user, maker.user, env.OwnerOf(taker.relayer), env.OwnerOf(maker.relayer),
                             LENDING_LOCK}
  }

  lemma ApartUnwritten(
      env: Env, taker: Party, maker: Party, side: Side, lending: Token, collateral: Token, legs: Legs, q: nat)
    ensures var borrower, investor := if side == Bid then taker else maker, if side == Bid then maker else taker;
      RewardApart(env, taker, maker) ==>
        Account(XDC_NATIVE, env.masternodeOwner) !in Written(Entries(env, side, borrower, investor, lending,
            collateral, legs, q))
  {
    var borrower, investor := if side == Bid then taker else maker, if side == Bid then maker else taker;
    if RewardApart(env, taker, maker) {
      WrittenByOthers(Entries(env, side, borrower, investor, lending, collateral, legs, q),
                      Account(XDC_NATIVE, env.masternodeOwner));
    }
  }

  lemma {:induction false} WrittenByOthers(es: seq<Entry>, a: Account)
    requires forall e | e in es :: e.account != a
    ensures a !in Written(es)
    decreases |es|
  {
    if es != [] {
      WrittenByOthers(es[..|es| - 1], a);
    }
  }

  lemma LoanConserves(
      env: Env, s: Loans, taker: Party, maker: Party, side: Side, lending: Token, collateral: Token, legs: Legs, q: nat)
    requires taker.user != env.contract && maker.user != env.contract && legs.received + legs.fee == q
    requires Solvent(env.contract, s.state.balances, s.deposits) && Ample(s.state.balances)
    requires var borrower, investor := if side == Bid then taker else maker, if side == Bid then maker else taker;
      Settle(env, s.state.balances, s.deposits, taker, maker, side,
             Entries(env, side, borrower, investor, lending, collateral, legs, q)).Some?
    ensures var borrower, investor := if side == Bid then taker else maker, if side == Bid then maker else taker;
      var (b, deposits) := Settle(env, s.state.balances, s.deposits, taker, maker, side,
                                  Entries(env, side, borrower, investor, lending, collateral, legs, q)).value;
      && (forall t: Token | t != XDC_NATIVE || RewardApart(env, taker, maker) ::
          Supply(b, t) == Supply(s.state.balances, t))
      && Ample(b) && Solvent(env.contract, b, deposits)
  {
    var borrower, investor := if side == Bid then taker else maker, if side == Bid then maker else taker;
    var es := Entries(env, side, borrower, investor, lending, collateral, legs, q);
    hide Supply, Entries, Net, Written, CheckAll, TotalOf;
    forall t: Token | t != XDC_NATIVE || RewardApart(env, taker, maker)
      ensures Supply(Settle(env, s.state.balances, s.deposits, taker, maker, side, es).value.0, t) ==
        Supply(s.state.balances, t)
    {
      ApartUnwritten(env, taker, maker, side, lending, collateral, legs, q);
      SettleIsSequential(env, s.state.balances, s.deposits, taker, maker, side, es, t);
      EntriesSum(env, side, borrower, investor, lending, collateral, legs, q, t);
    }
    ContractPays(env, s.state.balances, s.deposits, taker, maker, side, lending, collateral, legs, q);
    var relayer := if side == Bid then taker.relayer else maker.relayer;
    TotalWrite<Address>(s.deposits, relayer, ValueOf(s.deposits, relayer) - RELAYER_LENDING_FEE);
  }

  /** The contract loses no more than the fee. */
  lemma ContractPays(
      env: Env, b: Balances, deposits: map<Address, nat>, taker: Party, maker: Party, side: Side,
      lending: Token, collateral: Token, legs: Legs, q: nat)
    requires taker.user != env.contract && maker.user != env.contract
    requires var borrower, investor := if side == Bid then taker else maker, if side == Bid then maker else taker;
      Settle(env, b, deposits, taker, maker, side,
             Entries(env, side, borrower, investor, lending, collateral, legs, q)).Some?
    ensures var borrower, investor := if side == Bid then taker else maker, if side == Bid then maker else taker;
      var from := Account(XDC_NATIVE, env.contract);
      BalanceOf(Settle(env, b, deposits, taker, maker, side,
                       Entries(env, side, borrower, investor, lending, collateral, legs, q)).value.0, from)
        >= BalanceOf(b, from) - RELAYER_LENDING_FEE
  {
    var borrower, investor := if side == Bid then taker else maker, if side == Bid then maker else taker;
    var es := Entries(env, side, borrower, investor, lending, collateral, legs, q);
    var from := Account(XDC_NATIVE, env.contract);
    var drawn := Draw(env, b).value;
    OverlayIsSequential(drawn, env.tokens, es);
    ApplyMovesAccount(drawn, env.tokens, es, from);
    NetAtOfFive(es[0], es[1], es[2], es[3], es[4], from);
    var overlay := CheckAll(drawn, env.tokens, es).value;
    hide CheckAll, ApplyAll, NetAt;
    if from in overlay {
      assert BalanceOf(Reward(env, drawn) + overlay, from) == BalanceOf(drawn + overlay, from);
    }
  }

  // ----- cancelling an order

  /** The token an order would hand over: an investor the lent one, a borrower the collateral. */
  function Offered(order: Order<Party>): Token {
    if order.side == Ask then order.data.lendingToken else order.data.collateral
  }

  /** Borrower and investor of a loan hand over exactly what their orders offer. */
  lemma OfferedIsHandedOver(env: Env, side: Side, borrower: Order<Party>, investor: Order<Party>, legs: Legs, q: nat)
    requires borrower.side == Bid && investor.side == Ask
    ensures var es := Entries(env, side, borrower.data, investor.data, investor.data.lendingToken,
                              borrower.data.collateral, legs, q);
      forall e :: e in es && !e.credit <==>
        e == Entry(Account(Offered(borrower), borrower.data.user), false, legs.locked) ||
        e == Entry(Account(Offered(investor), investor.data.user), false, q)
  {
    var es := Entries(env, side, borrower.data, investor.data, investor.data.lendingToken, borrower.data.collateral,
                      legs, q);
    assert es == [es[0], es[1], es[2], es[3], es[4]];
  }

  /**
   ProcessCancelOrder after the order was found: what makes it refuse. The fee in tokens depends on prices and is
   given.
   */
  predicate Cancellable(env: Env, s: Loans, order: Order<Party>, fee: nat) {
    var lending, collateral := order.data.lendingToken, order.data.collateral;
    && CanPay(s.deposits, order.data.relayer, RELAYER_LENDING_CANCEL_FEE) && env.Decimal(lending) > 0
    && (order.side == Bid ==> env.block.PriceOf(L.Pair(collateral, lending)) > 0 && env.Decimal(collateral) > 0)
    && fee <= TokenBalance(env.tokens, s.state.balances, order.data.user, Offered(order))
  }

  /**
   The relayer pays the masternode out of its deposit, and the user pays the relayer's owner; a missing token is only
   logged.
   */
  function CancelBalances(env: Env, b: Balances, order: Order<Party>, fee: nat): Balances {
    var b1 := Debit(b, Account(XDC_NATIVE, env.contract), RELAYER_LENDING_CANCEL_FEE);
    var b2 := Credit(b1, Account(XDC_NATIVE, env.masternodeOwner), RELAYER_LENDING_CANCEL_FEE);
    if !Known(env.tokens, Offered(order)) then b2
    else
      var b3 := Debit(b2, Account(Offered(order), order.data.user), fee);
      Credit(b3, Account(Offered(order), env.OwnerOf(order.data.relayer)), fee)
  }

  function CancelLoans(env: Env, s: Loans, order: Order<Party>, fee: nat): Loans {
    var relayer := order.data.relayer;
    s.(state := s.state.(balances := CancelBalances(env, s.state.balances, order, fee)),
       deposits := if ValueOf(s.deposits, relayer) < RELAYER_LENDING_CANCEL_FEE then s.deposits
                   else s.deposits[relayer := ValueOf(s.deposits, relayer) - RELAYER_LENDING_CANCEL_FEE])
  }

  /** A cancellation takes nothing from the lock account. */
  lemma CancelLeavesLock(env: Env, b: Balances, order: Order<Party>, fee: nat, t: Token)
    requires LockApart(env) && Outsider(order.data) && env.OwnerOf(order.data.relayer) != LENDING_LOCK
    ensures BalanceOf(CancelBalances(env, b, order, fee), Account(t, LENDING_LOCK)) ==
      BalanceOf(b, Account(t, LENDING_LOCK))
  {
  }

  /**
   Who pays for a cancellation: the contract the masternode's owner, the user the relayer's owner; the deposit stays
   locked.
   */
  lemma CancelMoves(env: Env, s: Loans, order: Order<Party>, fee: nat, a: Account)
    requires Cancellable(env, s, order, fee) && Solvent(env.contract, s.state.balances, s.deposits)
      && order.data.user != env.contract
    ensures var r := CancelLoans(env, s, order, fee);
      && BalanceOf(r.state.balances, a) == BalanceOf(s.state.balances, a)
           - (if a == Account(XDC_NATIVE, env.contract) then RELAYER_LENDING_CANCEL_FEE else 0)
           + (if a == Account(XDC_NATIVE, env.masternodeOwner) then RELAYER_LENDING_CANCEL_FEE else 0)
           - (if a == Account(Offered(order), order.data.user) then fee else 0)
           + (if a == Account(Offered(order), env.OwnerOf(order.data.relayer)) then fee else 0)
      && r.deposits == s.deposits[order.data.relayer := ValueOf(s.deposits, order.data.relayer)
                                  - RELAYER_LENDING_CANCEL_FEE]
      && ValueOf(r.deposits, order.data.relayer) >= RELAYER_LOCKED_FUND
  {
    ValueAtMostTotal<Address>(s.deposits, order.data.relayer);
    hide TotalOf, Debit, Credit;
  }

  /** A cancellation moves no supply, and leaves the contract solvent. */
  lemma CancelConserves(env: Env, s: Loans, order: Order<Party>, fee: nat)
    requires Cancellable(env, s, order, fee) && Solvent(env.contract, s.state.balances, s.deposits)
      && order.data.user != env.contract
    ensures var r := CancelLoans(env, s, order, fee);
      && (forall t: Token :: Supply(r.state.balances, t) == Supply(s.state.balances, t))
      && Solvent(env.contract, r.state.balances, r.deposits)
  {
    var relayer, token := order.data.relayer, Offered(order);
    ValueAtMostTotal<Address>(s.deposits, relayer);
    TotalWrite<Address>(s.deposits, relayer, ValueOf(s.deposits, relayer) - RELAYER_LENDING_CANCEL_FEE);
    var b := s.state.balances;
    var b1 := Debit(b, Account(XDC_NATIVE, env.contract), RELAYER_LENDING_CANCEL_FEE);
    var b2 := Credit(b1, Account(XDC_NATIVE, env.masternodeOwner), RELAYER_LENDING_CANCEL_FEE);
    var b3 := Debit(b2, Account(token, order.data.user), fee);
    hide Supply, TotalOf, Debit, Credit;
    forall t: Token ensures Supply(CancelBalances(env, b, order, fee), t) == Supply(b, t) {
      SupplyDebit(b, Account(XDC_NATIVE, env.contract), RELAYER_LENDING_CANCEL_FEE, t);
      SupplyCredit(b1, Account(XDC_NATIVE, env.masternodeOwner), RELAYER_LENDING_CANCEL_FEE, t);
      if Known(env.tokens, token) {
        SupplyDebit(b2, Account(token, order.data.user), fee, t);
        SupplyCredit(b3, Account(token, env.OwnerOf(relayer)), fee, t);
      }
    }
  }

  // ----- the settlement in place

  class LendingLedger {
    const env: Env
    var balances: Balances
    var deposits: map<Address, nat>

    constructor (env: Env, balances: Balances, deposits: map<Address, nat>)
      ensures this.env == env && this.balances == balances && this.deposits == deposits
    {
      this.env, this.balances, this.deposits := env, balances, deposits;
    }

    /** The check phase: five new balances, each computed on what the ones before it left in the overlay. */
    method CheckBalances(es: seq<Entry>) returns (ok: bool, overlay: Balances)
      requires |es| == 5
      ensures CheckAll(balances, env.tokens, es) == if ok then Some(overlay) else None
    {
      hide CheckAll, Check;
      ok, overlay := false, map[];
      CheckNone(balances, env.tokens);
      var first, o1 := Stage(balances, env.tokens, map[], es[0], []);
      assert es[..1] == [] + [es[0]];
      if first.None? { FailedEarly(balances, env.tokens, es, 1); return; }
      var second, o2 := Stage(balances, env.tokens, o1, es[1], es[..1]);
      assert es[..2] == es[..1] + [es[1]];
      if second.None? { FailedEarly(balances, env.tokens, es, 2); return; }
      var third, o3 := Stage(balances, env.tokens, o2, es[2], es[..2]);
      assert es[..3] == es[..2] + [es[2]];
      if third.None? { FailedEarly(balances, env.tokens, es, 3); return; }
      var fee, o4 := Stage(balances, env.tokens, o3, es[3], es[..3]);
      assert es[..4] == es[..3] + [es[3]];
      if fee.None? { FailedEarly(balances, env.tokens, es, 4); return; }
      var locked, o5 := Stage(balances, env.tokens, o4, es[4], es[..4]);
      assert es == es[..4] + [es[4]];
      if locked.None? { return; }
      ok, overlay := true, o5;
    }

    /** Writing the overlay back, in any order. */
    method WriteBack(overlay: Balances)
      modifies this`balances
      ensures balances == old(balances) + overlay
    {
      var todo := overlay.Keys;
      while todo != {}
        invariant todo <= overlay.Keys
        invariant balances.Keys == old(balances).Keys + (overlay.Keys - todo)
        invariant forall a | a in balances :: balances[a] == if a in overlay && a !in todo then overlay[a]
            else old(balances)[a]
      {
        var a :| a in todo;
        balances := balances[a := overlay[a]];
        todo := todo - {a};
      }
    }

    /**
     The borrower's relayer has paid before the balances are checked, so a failure may leave that payment behind for
     the caller to undo. A contract that cannot pay is refused.
     */
    method DoSettleBalance(side: Side, taker: Party, maker: Party, es: seq<Entry>) returns (ok: bool)
      requires |es| == 5
      modifies this
      ensures ok ==> Settle(env, old(balances), old(deposits), taker, maker, side, es) == Some((balances, deposits))
      ensures !ok ==> Settle(env, old(balances), old(deposits), taker, maker, side, es).None?
      ensures !ok && balances != old(balances) ==> Draw(env, old(balances)) == Some(balances)
    {
      hide CheckAll;
      if env.OwnerOf(taker.relayer) == 0 || env.OwnerOf(maker.relayer) == 0 {
        return false;
      }
      var relayer := if side == Bid then taker.relayer else maker.relayer;
      if ValueOf(deposits, relayer) < RELAYER_LENDING_FEE {
        return false;
      }
      var from, to := Account(XDC_NATIVE, env.contract), Account(XDC_NATIVE, env.masternodeOwner);
      if BalanceOf(balances, from) < RELAYER_LENDING_FEE {
        return false;
      }
      deposits := deposits[relayer := ValueOf(deposits, relayer) - RELAYER_LENDING_FEE];
      balances := balances[from := BalanceOf(balances, from) - RELAYER_LENDING_FEE];
      var affordable, overlay := CheckBalances(es);
      if !affordable {
        return false;
      }
      balances := balances[to := BalanceOf(balances, to) + RELAYER_LENDING_FEE];
      WriteBack(overlay);
      return true;
    }
  }
}
