/**
 The liquidation pass in the states that runs of the lending engine reach: it finishes after a run whose matches
 cannot fail, it fails after a match that was undone too late, and it never ends once a trade was opened twice
 (XDCxlending/XDCxlending.go: ProcessLiquidationData; XDCxlending/lendingstate/statedb.go: InsertLiquidationTime).
 */
module LendingPasses {
  import opened Options
  import opened Sums
  import opened Division
  import opened Ledger
  import opened Matching
  import opened BalanceOverlay
  import opened Relayers
  import opened LendingSettlement
  import opened Liquidation
  import opened LiquidationSteps
  import L = LendingTrades
  import O = OrderBook
  import Q = Quantities
  import R = LendingRuns

  lemma ValidIsSound(l: R.Lending)
    requires R.Valid(l)
    ensures Sound(l.loans.state)
  {
  }

  lemma IndexedClears(s: L.State, book: L.Book, now: nat)
    requires L.Indexed(s)
    ensures BookClears(s, book, now) && !HasStray(s, book, now) && !HasSurplus(s, book, now)
  {
  }

  /**
   The pass after any run, from both indexes exact on: whatever the run did, the pass keeps the lock account's slack
   and opens nothing. If the run's matches could only reach willing makers, the time phase settles every listed book,
   and the pass finishes wherever prices and rates let it.
   */
  method PassAfterRun(
      pool: LendingBook, ghost contract: Address, ghost l: R.Lending, ghost actions: seq<R.Action>, env: L.Env,
      books: set<L.Book>, markets: seq<L.Pair>)
    returns (result: Pass)
    requires R.Valid(l) && L.Indexed(l.loans.state) && forall i | 0 <= i < |actions| :: R.Proper(actions[i])
    requires pool.View() == R.ActAll(l, actions).loans.state
    modifies pool
    ensures Sound(pool.View()) && SameSlack(l.loans.state, pool.View())
    ensures R.Funded(contract, l.loans) && R.AllReady(contract, l, actions, false) ==>
      && L.Indexed(pool.View())
      && (LiquidationRatesSet(old(pool.trades), env)
          && (forall m | m in markets :: PairCalm(old(pool.View()), env, m)) ==>
            && result == Finished
            && forall b | b in books && !ZeroSlot(old(pool.View()), b) :: Expired(pool.trades, b, env.now) == {})
  {
    ghost var s := pool.View();
    R.RunKeepsCollateral(contract, l, actions, false);
    ValidIsSound(R.ActAll(l, actions));
    hide R.ActAll, R.Valid, R.AllReady, R.Funded, L.Indexed, Sound, BookClears, HasStray, HasSurplus, ZeroSlot, Expired,
         PairCalm, LiquidationRatesSet, Evolves, L.SameResidue, L.Slack, Above;
    result := pool.ProcessLiquidationData(env, books, markets);
    if L.Indexed(s) {
      forall b | b in books
        ensures BookClears(s, b, env.now) && !HasStray(s, b, env.now) && !HasSurplus(s, b, env.now)
      {
        IndexedClears(s, b, env.now);
      }
      IndexedStays(s, pool.View());
    }
  }

  lemma IndexedStays(s: L.State, r: L.State)
    requires L.Indexed(s) && Sound(r) && L.SameResidue(s, r)
    ensures L.Indexed(r)
  {
  }

  // ----- a match that is undone too late

  const DEPOSIT := 30_000 * 1_000_000_000_000_000_000

  function SampleEnv(): Env {
    Env(L.Env(100, true, map[L.Pair(6, 5) := 1], map[6 := L.Rates(150, 110, 200)]), 3, {5, 6}, map[5 := 1, 6 := 1],
        map[7 := 8], map[], 1_000_000_000_000_000_000, true, 20, 10)
  }

  /** The second borrower offers a collateral without a price. */
  function Borrower(id: nat, user: Address, collateral: Token): Order<Party> {
    Order(id, Bid, 4, 100, Party(user, 7, 5, collateral, 60, false, id))
  }

  function Investor(quantity: nat): Order<Party> {
    Order(0, Ask, 4, quantity, Party(33, 7, 5, 0, 60, false, 0))
  }

  function SampleBalances(): Balances {
    map[Account(6, 31) := 150, Account(9, 32) := 150, Account(5, 33) := 200, Account(XDC_NATIVE, 20) := DEPOSIT]
  }

  function SampleLoans(times: set<L.TimeEntry>): Loans {
    Loans(L.State(SampleBalances(), map[], times, multiset{}, {}), map[7 := DEPOSIT], map[])
  }

  function SampleBook(): Book<Party> {
    map[1 := Borrower(1, 31, 6), 2 := Borrower(2, 32, 9)]
  }

  /** The time entry of the first trade. */
  function SampleEntry(): L.TimeEntry { L.TimeEntry(160, L.Key(3, 1)) }

  lemma SampleAmounts()
    ensures Q.BorrowerLocks(Q.Collateral(1, 150, 1), 100) == 150
    ensures SettleBalance(SampleEnv(), Ask, 5, Q.Collateral(1, 150, 1), 0, 100) == Some(Legs(0, 100, 150))
  {
    assert MulDiv(100, 100, Q.BASE_FEE) == 1;
    assert MulDiv(100, 0, Q.BASE_FEE) == 0;
    assert MulDiv(1, 1_000_000_000_000_000_000, 1) == 1_000_000_000_000_000_000;
    assert MulDiv(0, 1_000_000_000_000_000_000, 1) == 0;
  }

  /** The entries of the loan pass their checks. */
  lemma SampleChecks(drawn: Balances, quantity: nat)
    requires drawn == SampleBalances()[Account(XDC_NATIVE, 20) := DEPOSIT - RELAYER_LENDING_FEE]
    ensures CheckAll(drawn, {5, 6}, Entries(SampleEnv(), Ask, Borrower(1, 31, 6).data, Investor(quantity).data, 5, 6,
                                            Legs(0, 100, 150), 100)).Some?
  {
    LoanChecks(SampleEnv(), drawn, Ask, Borrower(1, 31, 6).data, Investor(quantity).data, 5, 6, Legs(0, 100, 150), 100);
  }

  /** The first borrower's loan settles and opens the first trade of the book; the second's collateral has no price. */
  lemma SampleSettles(times: set<L.TimeEntry>, quantity: nat) returns (after: Loans)
    ensures SettleLoan(SampleEnv(), SampleLoans(times), Investor(quantity), Borrower(1, 31, 6), 100) ==
      Settled(after, 100, false)
    ensures after.state.times == times + {SampleEntry()} && after.state.trades.Keys == {L.Key(3, 1)}
    ensures after.state.trades[L.Key(3, 1)].liqTime == 160
    ensures after.state.surplus == if SampleEntry() in times then multiset{L.Slot(3, 160)} else multiset{}
    ensures SettleLoan(SampleEnv(), after, Investor(quantity), Borrower(2, 32, 9), 100).Failure?
  {
    hide CheckAll, Entries, SettleBalance, Q.BorrowerLocks, MulDiv;
    SampleAmounts();
    var env, s := SampleEnv(), SampleLoans(times);
    var drawn := SampleBalances()[Account(XDC_NATIVE, 20) := DEPOSIT - RELAYER_LENDING_FEE];
    SampleChecks(drawn, quantity);
    assert Draw(env, s.state.balances) == Some(drawn);
    assert CollateralOf(env, 5, 6) == Q.Collateral(1, 150, 1);
    assert Lendable(env, s, Ask, Borrower(1, 31, 6).data, Investor(quantity).data, 5, 100) == Q.Quantity(100, false);
    var r := SettleLoan(env, s, Investor(quantity), Borrower(1, 31, 6), 100);
    after := r.state;
    assert L.SlotOf(SampleEntry()) == L.Slot(3, 160);
  }

  function Sample(times: set<L.TimeEntry>): R.Lending {
    R.Lending(SampleLoans(times), map[3 := R.Shelf(SampleBook(), 2)])
  }

  function LendAll(): R.Action { R.Match(SampleEnv(), Investor(200), O.Market) }

  function LendHalf(): R.Action { R.Match(SampleEnv(), Investor(100), O.Market) }

  lemma SampleValid(times: set<L.TimeEntry>)
    ensures R.Valid(Sample(times)) && R.Proper(LendAll()) && R.Proper(LendHalf())
    ensures times == {} ==> L.Indexed(Sample(times).loans.state)
  {
    SampleOrderly();
    hide R.Orderly, SampleBook, SampleBalances;
    var s := Sample(times).loans.state;
    forall token ensures L.Slack(s, token) >= 0 {
      assert L.LockedBy(s.trades, token) == {};
    }
  }

  lemma SampleOrderly()
    ensures R.Orderly(R.Shelf(SampleBook(), 2))
  {
  }

  /**
   An investor fills one borrower and then meets one whose collateral has no price. The order is undone, but the time
   entry of the trade it had opened stays.
   */
  lemma StaleTimeEntry()
    ensures R.Valid(Sample({})) && R.Proper(LendAll()) && L.Indexed(Sample({}).loans.state)
    ensures R.Spoils(Sample({}), LendAll())
    ensures R.Act(Sample({}), LendAll()) == Sample({SampleEntry()})
  {
    hide R.Valid, R.Orderly, R.MatchOrder, SampleEnv, SampleBalances, SampleBook, L.Indexed;
    SampleValid({});
    var after := SampleRejects();
    assert Sample({}).loans.state.(times := after.state.times, surplus := after.state.surplus) ==
      SampleLoans({SampleEntry()}).state;
  }

  lemma SampleExchange(times: set<L.TimeEntry>, quantity: nat)
    requires R.Valid(Sample(times))
    ensures Honest(LoanSettler(SampleEnv())) && Resting(SampleBook())
    ensures R.MatchOrder(Sample(times), R.Match(SampleEnv(), Investor(quantity), O.Market)) ==
      O.Place(O.Exchange(SampleBook(), 2, SampleLoans(times)), Investor(quantity), O.Market, LoanSettler(SampleEnv()))
  {
    hide R.Valid, R.Orderly, SettleLoan, O.Place, SampleLoans, SampleBook, Honest, Resting;
    LendsHonestly(SampleEnv());
    R.OrderlyShelf(Sample(times), 3);
    assert R.ExchangeOf(Sample(times), 3) == O.Exchange(SampleBook(), 2, SampleLoans(times));
  }

  lemma SampleRejects() returns (after: Loans)
    requires R.Valid(Sample({}))
    ensures after.state.times == {SampleEntry()} && after.state.surplus == multiset{}
    ensures var p := R.MatchOrder(Sample({}), LendAll()); p.Rejected? && p.run.state == after && p.run.fills != []
  {
    hide R.Valid, R.MatchOrder, SettleLoan, O.Place, SampleLoans, SampleEnv, Honest, Resting;
    after := SampleSettles({}, 200);
    SampleExchange({}, 200);
    O.FailsAfterFill(O.Exchange(SampleBook(), 2, SampleLoans({})), Investor(200), LoanSettler(SampleEnv()),
                     Borrower(1, 31, 6), Borrower(2, 32, 9), after);
  }

  lemma SampleFills() returns (after: Loans)
    requires R.Valid(Sample({SampleEntry()}))
    ensures after.state.times == {SampleEntry()} && after.state.surplus == multiset{L.Slot(3, 160)}
    ensures after.state.trades.Keys == {L.Key(3, 1)} && after.state.trades[L.Key(3, 1)].liqTime == 160
    ensures var p := R.MatchOrder(Sample({SampleEntry()}), LendHalf()); p.Placed? && p.exchange.state == after
  {
    hide R.Valid, R.MatchOrder, SettleLoan, O.Place, SampleLoans, SampleEnv, Honest, Resting;
    after := SampleSettles({SampleEntry()}, 100);
    SampleExchange({SampleEntry()}, 100);
    O.FillsFirst(O.Exchange(SampleBook(), 2, SampleLoans({SampleEntry()})), Investor(100), LoanSettler(SampleEnv()),
                 Borrower(1, 31, 6), Borrower(2, 32, 9), after);
    assert {SampleEntry()} + {SampleEntry()} == {SampleEntry()};
  }

  /** A smaller order in the stale state opens the same trade id at the same time. */
  lemma Reopens() returns (after: Loans)
    ensures R.Valid(Sample({SampleEntry()})) && R.Act(Sample({SampleEntry()}), LendHalf()).loans == after
    ensures after.state.times == {SampleEntry()} && after.state.surplus == multiset{L.Slot(3, 160)}
    ensures after.state.trades.Keys == {L.Key(3, 1)} && after.state.trades[L.Key(3, 1)].liqTime == 160
  {
    hide R.Valid, R.Orderly, R.MatchOrder, SampleEnv, SampleLoans, SampleBook;
    SampleValid({SampleEntry()});
    after := SampleFills();
  }

  /**
   So in one block an order that is undone and a smaller one after it leave a trade that is listed once and counted
   twice.
   */
  lemma ReopenedTrade() returns (l: R.Lending)
    ensures R.Valid(Sample({})) && R.Proper(LendAll()) && R.Proper(LendHalf())
      && l == R.ActAll(Sample({}), [LendAll(), LendHalf()])
    ensures R.Valid(l) && l.loans.state.times == {SampleEntry()} && l.loans.state.surplus == multiset{L.Slot(3, 160)}
    ensures l.loans.state.trades.Keys == {L.Key(3, 1)} && l.loans.state.trades[L.Key(3, 1)].liqTime == 160
  {
    hide R.Valid, R.Proper, R.Act, R.Spoils, Sample, LendAll, LendHalf, L.Indexed, SampleEntry;
    SampleValid({});
    StaleTimeEntry();
    var after := Reopens();
    var stale := Sample({SampleEntry()});
    R.ActKeeps(stale, LendHalf());
    l := R.Act(stale, LendHalf());
    TwoSteps(Sample({}), LendAll(), LendHalf(), stale);
  }

  lemma TwoSteps(l: R.Lending, a: R.Action, b: R.Action, mid: R.Lending)
    requires R.Valid(l) && R.Proper(a) && R.Proper(b) && R.Act(l, a) == mid && R.Valid(mid)
    ensures R.ActAll(l, [a, b]) == R.Act(mid, b)
  {
    hide R.Act, R.Valid, R.Proper;
    R.ActKeeps(mid, b);
    assert [a, b][1..] == [b] && [b][1..] == [];
    assert R.ActAll(R.Act(mid, b), []) == R.Act(mid, b);
    assert R.ActAll(mid, [b]) == R.Act(mid, b);
  }

  /** The pass in the state with the stale entry fails once the entry's time has passed. */
  method PassAfterStaleEntry(pool: LendingBook, env: L.Env) returns (result: Pass)
    requires R.Valid(Sample({}))
    requires pool.View() == R.Act(Sample({}), LendAll()).loans.state && env.now > 160
    modifies pool
    ensures result == Pass.Failed
  {
    hide R.Act, R.Valid, R.Proper, R.Spoils, LendAll, Sound, HasStray, HasSurplus, ZeroSlot, BookClears, Evolves,
         L.SameResidue, L.Indexed, SampleLoans, LiquidationRatesSet;
    StaleTimeEntry();
    SampleValid({SampleEntry()});
    ValidIsSound(Sample({SampleEntry()}));
    StaleIsStray(env);
    result := pool.ProcessLiquidationData(env, {3}, []);
  }

  lemma StaleIsStray(env: L.Env)
    ensures var s := SampleLoans({SampleEntry()}).state;
      && (env.now > 160 ==> !BookClears(s, 3, env.now)) && !HasSurplus(s, 3, env.now)
        && LiquidationRatesSet(s.trades, env)
  {
    assert SampleEntry() in L.Strays(SampleLoans({SampleEntry()}).state);
  }

  /** The pass in the state with the trade counted twice closes it and then goes round forever. */
  method PassAfterReopening(pool: LendingBook, env: L.Env) returns (result: Pass)
    requires R.Valid(Sample({})) && R.Proper(LendAll()) && R.Proper(LendHalf())
    requires pool.View() == R.ActAll(Sample({}), [LendAll(), LendHalf()]).loans.state && env.now > 160
    requires LiquidationRatesSet(pool.trades, env)
    modifies pool
    ensures result == Stuck
  {
    hide R.ActAll, R.Valid, R.Proper, LendAll, LendHalf, Sample, SampleEntry, Sound, HasStray, HasSurplus, ZeroSlot,
         BookClears, Evolves, L.SameResidue, LiquidationRatesSet;
    ghost var l := ReopenedTrade();
    ValidIsSound(l);
    TwiceIsSurplus(l.loans.state, env.now);
    result := pool.ProcessLiquidationData(env, {3}, []);
  }

  lemma TwiceIsSurplus(s: L.State, now: nat)
    requires s.times == {SampleEntry()} && s.surplus == multiset{L.Slot(3, 160)} && now > 160
    requires s.trades.Keys == {L.Key(3, 1)} && s.trades[L.Key(3, 1)].liqTime == 160
    ensures !HasStray(s, 3, now) && !BookClears(s, 3, now)
  {
    assert L.Key(3, 1) in s.trades;
    assert L.Slot(3, 160) in s.surplus;
  }

  // ----- a top-up that never lands

  function EightEnv(): Env {
    SampleEnv().(block := L.Env(100, true, map[L.Pair(6, 5) := 125], map[6 := L.Rates(150, 110, 200)]))
  }

  function EightBorrower(): Order<Party> {
    Order(1, Bid, 4, 667, Party(31, 7, 5, 6, 60, true, 1))
  }

  function EightBalances(): Balances {
    map[Account(6, 31) := 8, Account(9, 32) := 150, Account(5, 33) := 667, Account(XDC_NATIVE, 20) := DEPOSIT]
  }

  function EightLoans(): Loans {
    Loans(L.State(EightBalances(), map[], {}, multiset{}, {}), map[7 := DEPOSIT], map[])
  }

  function EightBook(): Book<Party> {
    map[1 := EightBorrower(), 2 := Borrower(2, 32, 9)]
  }

  function EightStart(): R.Lending {
    R.Lending(EightLoans(), map[3 := R.Shelf(EightBook(), 2)])
  }

  function LendEight(): R.Action { R.Match(EightEnv(), Investor(667), O.Market) }

  /** One trade with 8 units locked at liquidation price 91, to be topped up automatically. */
  ghost predicate EightLocked(trades: map<L.Key, L.Trade>) {
    && trades.Keys == {L.Key(3, 1)}
    && var t := trades[L.Key(3, 1)]; t.locked == 8 && t.liqPrice == 91 && t.autoTopUp && t.Market() == L.Pair(6, 5)
  }

  lemma EightAmounts()
    ensures Q.BorrowerLocks(Q.Collateral(1, 150, 125), 667) == 8 && MulDiv(125, 110, 150) == 91
    ensures SettleBalance(EightEnv(), Ask, 5, Q.Collateral(1, 150, 125), 0, 667) == Some(Legs(0, 667, 8))
  {
    assert MulDiv(667, 100, Q.BASE_FEE) == 6;
    assert MulDiv(667, 0, Q.BASE_FEE) == 0;
    assert MulDiv(6, 1_000_000_000_000_000_000, 1) == 6_000_000_000_000_000_000;
    assert MulDiv(0, 1_000_000_000_000_000_000, 1) == 0;
  }

  lemma EightChecks(drawn: Balances)
    requires drawn == EightBalances()[Account(XDC_NATIVE, 20) := DEPOSIT - RELAYER_LENDING_FEE]
    ensures CheckAll(drawn, {5, 6}, Entries(EightEnv(), Ask, EightBorrower().data, Investor(667).data, 5, 6,
                                            Legs(0, 667, 8), 667)).Some?
  {
    LoanChecks(EightEnv(), drawn, Ask, EightBorrower().data, Investor(667).data, 5, 6, Legs(0, 667, 8), 667);
  }

  /** A loan of 667 at price 125 with rates 150 and 110 locks 8 units at liquidation price 91. */
  lemma EightSettles() returns (after: Loans)
    ensures SettleLoan(EightEnv(), EightLoans(), Investor(667), EightBorrower(), 667) == Settled(after, 667, false)
    ensures EightLocked(after.state.trades)
  {
    hide CheckAll, Entries, SettleBalance, Q.BorrowerLocks, MulDiv;
    EightAmounts();
    var env, s := EightEnv(), EightLoans();
    var drawn := EightBalances()[Account(XDC_NATIVE, 20) := DEPOSIT - RELAYER_LENDING_FEE];
    EightChecks(drawn);
    assert Draw(env, s.state.balances) == Some(drawn);
    assert CollateralOf(env, 5, 6) == Q.Collateral(1, 150, 125);
    assert Lendable(env, s, Ask, EightBorrower().data, Investor(667).data, 5, 667) == Q.Quantity(667, false);
    after := SettleLoan(env, s, Investor(667), EightBorrower(), 667).state;
  }

  lemma EightValid()
    ensures R.Valid(EightStart()) && R.Proper(LendEight())
  {
    EightOrderly();
    hide R.Orderly, EightBook, EightBalances;
    var s := EightLoans().state;
    forall token ensures L.Slack(s, token) >= 0 {
      assert L.LockedBy(s.trades, token) == {};
    }
  }

  lemma EightOrderly()
    ensures R.Orderly(R.Shelf(EightBook(), 2))
  {
  }

  /** The run of this one match opens that trade. */
  lemma EightOpens() returns (l: R.Lending)
    ensures R.Valid(EightStart()) && R.Proper(LendEight()) && l == R.ActAll(EightStart(), [LendEight()])
    ensures R.Valid(l) && EightLocked(l.loans.state.trades)
  {
    hide R.Valid, R.Proper, SettleLoan, O.Place, EightLoans, Honest, Resting, EightLocked, R.Orderly;
    EightValid();
    var after := EightSettles();
    LendsHonestly(EightEnv());
    R.OrderlyShelf(EightStart(), 3);
    assert R.ExchangeOf(EightStart(), 3) == O.Exchange(EightBook(), 2, EightLoans());
    O.FillsFirst(O.Exchange(EightBook(), 2, EightLoans()), Investor(667), LoanSettler(EightEnv()), EightBorrower(),
                 Borrower(2, 32, 9), after);
    l := R.Act(EightStart(), LendEight());
    R.ActKeeps(EightStart(), LendEight());
    assert [LendEight()][1..] == [];
    assert R.ActAll(l, []) == l;
  }

  lemma EightIsStubborn(s: L.State)
    requires EightLocked(s.trades)
    ensures Stubborn(s, L.Pair(6, 5), 90, L.Key(3, 1)) && TopUpsDivide(s.trades, L.Pair(6, 5), 90)
  {
    assert L.Key(3, 1) in s.trades;
    assert L.TopUpTarget(90) == 81 && MulDiv(8, 91, 81) == 8 && MulDiv(91, 8, 8) == 91;
  }

  /** When the price has fallen to 90, the pass never gets past this trade. */
  method EightNeverEnds(pool: LendingBook, env: L.Env) returns (result: Pass)
    requires R.Valid(EightStart()) && R.Proper(LendEight())
    requires pool.View() == R.ActAll(EightStart(), [LendEight()]).loans.state
    requires env.PriceOf(L.Pair(6, 5)) == 90 && RatesSet(env.RatesOf(6))
    modifies pool
    ensures result == Stuck && StuckPrice(pool.View(), L.Pair(6, 5), 90)
  {
    hide R.ActAll, R.Valid, R.Proper, LendEight, EightStart, EightLocked, Sound, Stubborn, TopUpsDivide, TopUpsSettle,
         OnlyPair, StuckPrice, Above;
    ghost var l := EightOpens();
    ValidIsSound(l);
    EightIsStubborn(l.loans.state);
    result := pool.SettlePair(env, L.Pair(6, 5));
  }
}
