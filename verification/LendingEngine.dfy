/**
 The lending engine order by order (XDCxlending/order_processor.go: ApplyOrder, ProcessTopUp, ProcessRepay,
 ProcessCancelOrder), what the proposer of a block records (XDCxlending/XDCxlending.go: ProcessOrderPending) and how
 a validator replays it (core/block_validator.go: ValidateLendingOrder).
 */
module LendingEngine {
  import opened Options
  import opened Sums
  import opened Ledger
  import opened Matching
  import opened OrderBook
  import opened BalanceOverlay
  import opened LendingSettlement
  import L = LendingTrades
  import P = LoanPayments
  import R = LendingRuns

  /** XDCxlending/lendingstate/lendingitem.go: MaxLendingExtraDataSize. */
  const MAX_EXTRA := 200

  datatype Purpose = Loan(kind: Kind) | TopUp | Repay

  /** An order as users sign it. Cancelling names a resting order, topping up and repaying an open trade. */
  datatype Item = Item(
    nonce: nat, party: Party, side: Side, purpose: Purpose, cancel: bool, interest: nat, quantity: nat,
    lendingId: nat, tradeId: nat, extra: string)

  datatype Desk = Desk(lending: R.Lending, nonces: map<Address, nat>)

  /**
   What is fixed in a block: the environment of a lending token and term, the check of an order apart from the size
   of its extra data, and the fee and coin price of a cancellation.
   */
  datatype Rules = Rules(
    env: (Token, nat) -> Env,
    verify: (Loans, Item) -> bool,
    cancelFee: (Loans, Order<Party>) -> nat,
    cancelPrice: (Loans, Order<Party>) -> nat)

  /** Only a cancellation is signed with its id, and the extra data is not signed. */
  ghost predicate Unread(rules: Rules) {
    && (forall s: Loans, i: Item, x: string :: rules.verify(s, i.(extra := x)) == rules.verify(s, i))
    && (forall s: Loans, i: Item, id: nat :: !i.cancel ==> rules.verify(s, i.(lendingId := id)) == rules.verify(s, i))
  }

  /** Fees and prices are words of the state. */
  ghost predicate WordSized(rules: Rules) {
    forall s: Loans, o: Order<Party> :: rules.cancelFee(s, o) < WORD && rules.cancelPrice(s, o) < WORD
  }

  function EnvOf(rules: Rules, i: Item): Env { rules.env(i.party.lendingToken, i.party.term) }

  /** The lock account has no key, so it signs no order, and it owns neither a relayer nor a masternode. */
  ghost predicate Admissible(rules: Rules, i: Item) {
    LockApart(EnvOf(rules, i)) && Outsider(i.party)
  }

  function NonceOf(d: Desk, user: Address): nat { ValueOf(d.nonces, user) }

  function OrderOf(i: Item): Order<Party> { Order(i.lendingId, i.side, i.interest, i.quantity, i.party) }

  // ----- the note of a cancellation

  function Text(n: nat): string
    decreases n
  {
    if n < 10 then [('0' as int + n) as char] else Text(n / 10) + [('0' as int + n % 10) as char]
  }

  ghost function Pow10(k: nat): nat {
    if k == 0 then 1 else 10 * Pow10(k - 1)
  }

  lemma {:induction false} TextLength(n: nat, k: nat)
    requires 1 <= k && n < Pow10(k)
    ensures |Text(n)| <= k
    decreases k
  {
    if n >= 10 {
      TextLength(n / 10, k - 1);
    }
  }

  function Note(fee: nat, price: nat): string {
    "{\"CancelFee\":\"" + Text(fee) + "\",\"TokenPriceInXDC\":\"" + Text(price) + "\"}"
  }

  lemma {:induction false} Pow10Sum(a: nat, b: nat)
    ensures Pow10(a + b) == Pow10(a) * Pow10(b)
    decreases a
  {
    if a > 0 {
      Pow10Sum(a - 1, b);
    }
  }

  lemma Pow10Multiplied(a: nat, b: nat, x: nat, y: nat, z: nat)
    requires Pow10(a) == x && Pow10(b) == y && x * y == z
    ensures Pow10(a + b) == z
  {
    Pow10Sum(a, b);
  }

  lemma WordDigits()
    ensures WORD <= Pow10(78)
  {
    assert Pow10(3) == 1000;
    hide Pow10;
    var p6, p12, p24, p48 := 1_000_000, 1_000_000_000_000, 1_000_000_000_000_000_000_000_000,
        1_000_000_000_000_000_000_000_000_000_000_000_000_000_000_000_000;
    Pow10Multiplied(3, 3, 1000, 1000, p6);
    Pow10Multiplied(6, 6, p6, p6, p12);
    Pow10Multiplied(12, 12, p12, p12, p24);
    Pow10Multiplied(24, 24, p24, p24, p48);
    Pow10Multiplied(48, 24, p48, p24, p48 * p24);
    Pow10Multiplied(72, 6, p48 * p24, p6, p48 * p24 * p6);
  }

  /** The note of any two words is short enough to be accepted again. */
  lemma NoteFits(fee: nat, price: nat)
    requires fee < WORD && price < WORD
    ensures |Note(fee, price)| <= MAX_EXTRA
  {
    WordDigits();
    TextLength(fee, 78);
    TextLength(price, 78);
    hide Text, Pow10;
  }

  // ----- one order

  datatype Result = NonceTooHigh | NonceTooLow | Halted | Applied(state: Desk, item: Item)

  /** Whether the trade is open and the order comes from its borrower through its relayer. */
  predicate Owns(l: R.Lending, i: Item, key: L.Key) {
    && key in l.loans.state.trades
    && l.loans.state.trades[key].borrower == i.party.user
    && l.loans.state.trades[key].borrowingRelayer == i.party.relayer
  }

  function KeyOf(rules: Rules, i: Item): L.Key { L.Key(EnvOf(rules, i).book, i.tradeId) }

  predicate Matchable(i: Item)
    requires i.purpose.Loan?
  {
    0 < i.quantity < WORD && (i.purpose.kind == Limit ==> 0 < i.interest < WORD)
  }

  /** What an order that passed its checks sets going; nothing if its branch refuses it. */
  function ActionOf(rules: Rules, l: R.Lending, i: Item): Option<R.Action> {
    var env, key := EnvOf(rules, i), KeyOf(rules, i);
    match i.purpose
    case TopUp => if Owns(l, i, key) && i.quantity > 0 then Some(R.TopUp(key, i.quantity)) else None
    case Repay => if Owns(l, i, key) then Some(R.Repay(env.block, key)) else None
    case Loan(kind) =>
      var orders := R.ShelfOf(l, env.book).orders;
      if i.cancel then
        if i.lendingId !in orders then None
        else Some(R.Cancel(env, i.lendingId, i.party.user, i.party.hash, rules.cancelFee(l.loans, orders[i.lendingId])))
      else if Matchable(i) then Some(R.Match(env, OrderOf(i), kind)) else None
  }

  predicate Halts(l: R.Lending, a: R.Action) {
    a.OnTrade() && R.TradeStep(l.loans.state, a).Panicked?
  }

  /** What processing leaves in the order: the id it rests under, or the note of its cancellation. */
  ghost function Processed(rules: Rules, l: R.Lending, a: R.Action, i: Item): Item
    requires R.Valid(l)
  {
    if a.Match? && R.ShelfOf(R.Act(l, a), a.env.book).lastId > R.ShelfOf(l, a.env.book).lastId
    then i.(lendingId := R.ShelfOf(R.Act(l, a), a.env.book).lastId)
    else if a.Cancel? && R.Cancels(l, a)
    then i.(extra := Note(a.fee, rules.cancelPrice(l.loans, R.ShelfOf(l, a.env.book).orders[a.id])))
    else i
  }

  /** ApplyOrder: the nonce is checked before anything changes and then counts, however the order fares. */
  ghost function ApplyOrder(rules: Rules, d: Desk, i: Item): Result
    requires R.Valid(d.lending)
  {
    var nonce := NonceOf(d, i.party.user);
    if nonce < i.nonce then NonceTooHigh
    else if nonce > i.nonce then NonceTooLow
    else
      var counted := d.(nonces := d.nonces[i.party.user := nonce + 1]);
      if !rules.verify(d.lending.loans, i) || |i.extra| > MAX_EXTRA then Applied(counted, i)
      else
        match ActionOf(rules, d.lending, i)
        case None => Applied(counted, i)
        case Some(a) =>
          if Halts(d.lending, a) then Halted
          else Applied(counted.(lending := R.Act(d.lending, a)), Processed(rules, d.lending, a, i))
  }

  lemma ActionProper(rules: Rules, l: R.Lending, i: Item)
    requires Admissible(rules, i)
    ensures var a := ActionOf(rules, l, i); a.Some? ==> R.Proper(a.value)
  {
  }

  /** Every order keeps the lending state valid and the lock account's cover of every collateral. */
  lemma ApplyKeeps(rules: Rules, d: Desk, i: Item)
    requires R.Valid(d.lending) && Admissible(rules, i)
    ensures var r := ApplyOrder(rules, d, i);
      r.Applied? ==> R.Valid(r.state.lending) && R.SameSlack(d.lending.loans.state, r.state.lending.loans.state)
  {
    hide R.Valid, R.Act, R.Proper, ActionOf, Processed, Admissible, L.Slack;
    ActionProper(rules, d.lending, i);
    var a := ActionOf(rules, d.lending, i);
    if a.Some? {
      R.ActKeeps(d.lending, a.value);
    }
  }

  /**
   An order applies exactly under its user's next nonce, and then never again; a refused one changes only the nonce.
   */
  lemma NonceDiscipline(rules: Rules, d: Desk, i: Item)
    requires R.Valid(d.lending) && Admissible(rules, i)
    ensures var r := ApplyOrder(rules, d, i);
      && (r.Applied? || r.Halted? <==> i.nonce == NonceOf(d, i.party.user))
      && (r.Applied? ==> R.Valid(r.state.lending) && r.state.nonces == d.nonces[i.party.user := i.nonce + 1])
      && (r.Applied? ==> ApplyOrder(rules, r.state, i) == NonceTooLow)
      && (r.Applied? && (!rules.verify(d.lending.loans, i) || |i.extra| > MAX_EXTRA
                         || ActionOf(rules, d.lending, i).None?) ==>
            r.state == d.(nonces := r.state.nonces) && r.item == i)
  {
    hide R.Valid, R.Act, ActionOf, Processed, Admissible;
    ApplyKeeps(rules, d, i);
  }

  // ----- whose trades an order touches

  /**
   An open trade changes only by a top-up or repayment of its own borrower through its own relayer; every other order
   leaves it as it is, whatever it matches or cancels and however it fails.
   */
  lemma TradesStay(rules: Rules, d: Desk, i: Item, k: L.Key)
    requires R.Valid(d.lending) && Admissible(rules, i) && ApplyOrder(rules, d, i).Applied?
      && k in d.lending.loans.state.trades
    ensures var before := d.lending.loans.state.trades;
      var after := ApplyOrder(rules, d, i).state.lending.loans.state.trades;
      (k in after && after[k] == before[k]) || Touches(rules, before[k], i, k)
  {
    hide R.Valid, R.Act, Processed, Admissible;
    ActionProper(rules, d.lending, i);
    var a := ActionOf(rules, d.lending, i);
    if a.Some? {
      if !a.value.OnTrade() {
        R.OrdersKeepTrades(d.lending, a.value);
      } else if k != R.KeyOf(a.value) {
        R.StepSpares(d.lending, a.value, k);
      }
    }
  }

  /** A top-up or repayment of the trade by its borrower through its relayer. */
  predicate Touches(rules: Rules, t: L.Trade, i: Item, k: L.Key) {
    !i.purpose.Loan? && k == KeyOf(rules, i) && t.borrower == i.party.user && t.borrowingRelayer == i.party.relayer
  }

  /** An order under its nonce that passes its checks. */
  predicate Passes(rules: Rules, d: Desk, i: Item) {
    i.nonce == NonceOf(d, i.party.user) && rules.verify(d.lending.loans, i) && |i.extra| <= MAX_EXTRA
  }

  /**
   A cancellation takes the named order off its book exactly if it carries that order's user and hash and the fees can
   be paid; it takes no other order off and touches no trade.
   */
  lemma CancelsExactly(rules: Rules, d: Desk, i: Item)
    requires R.Valid(d.lending) && Passes(rules, d, i) && i.purpose.Loan? && i.cancel
    ensures var env, r := EnvOf(rules, i), ApplyOrder(rules, d, i);
      r.Applied? &&
      var before, after := R.ShelfOf(d.lending, env.book).orders, R.ShelfOf(r.state.lending, env.book).orders;
      && (forall id | id != i.lendingId ::
            (id in after <==> id in before) && (id in before ==> after[id] == before[id]))
      && (i.lendingId in before ==>
            var o := before[i.lendingId];
            i.lendingId !in after <==>
              && o.data.user == i.party.user && o.data.hash == i.party.hash
              && Cancellable(env, d.lending.loans, o, rules.cancelFee(d.lending.loans, o)))
      && r.state.lending.loans.state.trades == d.lending.loans.state.trades
  {
    hide R.Valid, Cancellable, CancelBalances, Note, KeyOf;
  }

  /**
   A repayment by the borrower closes the trade exactly if the borrower can pay or the term is over, unless the price
   of the collateral has no liquidation rate to be divided by.
   */
  lemma RepaysExactly(rules: Rules, d: Desk, i: Item)
    requires R.Valid(d.lending) && Passes(rules, d, i) && i.purpose.Repay? && Owns(d.lending, i, KeyOf(rules, i))
    ensures var block, key, r := EnvOf(rules, i).block, KeyOf(rules, i), ApplyOrder(rules, d, i);
      var s := d.lending.loans.state;
      r.Halted? ||
      (r.Applied? &&
       (key !in r.state.lending.loans.state.trades <==>
          var t := s.trades[key];
          BalanceOf(s.balances, Account(t.lendingToken, t.borrower)) >= P.Payment(block, t) || t.liqTime <= block.now))
  {
    hide P.Payment, L.RepayTrade, L.SameResidue;
    P.RepayPays(d.lending.loans.state, EnvOf(rules, i).block, KeyOf(rules, i));
    L.RepayEffect(d.lending.loans.state, EnvOf(rules, i).block, KeyOf(rules, i));
    hide L.Covered, L.OutsideParties, L.Backed, R.Orderly, P.PaysOut;
  }

  /** A top-up by the borrower never halts, and locks the whole quantity exactly if the borrower has it. */
  lemma TopsUpExactly(rules: Rules, d: Desk, i: Item)
    requires R.Valid(d.lending) && Passes(rules, d, i) && i.purpose.TopUp? && Owns(d.lending, i, KeyOf(rules, i))
    requires i.quantity > 0
    ensures var key, r := KeyOf(rules, i), ApplyOrder(rules, d, i);
      var s := d.lending.loans.state;
      r.Applied? && key in r.state.lending.loans.state.trades &&
      var t, u := s.trades[key], r.state.lending.loans.state.trades[key];
      if BalanceOf(s.balances, Account(t.collateralToken, t.borrower)) >= i.quantity
      then u.locked == t.locked + i.quantity && u.liqPrice <= t.liqPrice
      else u == t
  {
    hide L.TopUpTrade, L.Covered, L.OutsideParties, L.Backed, R.Orderly, L.SameResidue, EnvOf;
    var s, key := d.lending.loans.state, KeyOf(rules, i);
    L.TopUpEffect(s, key, i.quantity);
    L.TopUpLocks(s, key, i.quantity);
  }

  // ----- replay

  /** What the proposer records: the order as it came, with the id and the extra data that processing it left. */
  function Recorded(i: Item, processed: Item): Item {
    i.(lendingId := processed.lendingId, extra := processed.extra)
  }

  lemma LoansIgnoreTakerId(env: Env)
    ensures IgnoresTakerId(LoanSettler(env))
  {
    hide SettleLoan;
    forall s: Loans, taker: Order<Party>, maker: Order<Party>, q: nat, id: nat
      ensures LoanSettler(env)(s, taker.(id := id), maker, q) == LoanSettler(env)(s, taker, maker, q)
    {
      LoanIgnoresTakerId(env, s, taker, maker, q, id);
    }
  }

  lemma LoanIgnoresTakerId(env: Env, s: Loans, taker: Order<Party>, maker: Order<Party>, q: nat, id: nat)
    ensures SettleLoan(env, s, taker.(id := id), maker, q) == SettleLoan(env, s, taker, maker, q)
  {
    hide Settle, SettleBalance, Lendable, Entries, Open, NewTrade, Priced;
  }

  lemma MatchIgnoresId(l: R.Lending, env: Env, order: Order<Party>, id: nat, kind: Kind)
    requires R.Valid(l)
    ensures R.Act(l, R.Match(env, order.(id := id), kind)) == R.Act(l, R.Match(env, order, kind))
  {
    hide R.Valid, MatchBook, LoanSettler, R.Orderly;
    LendsHonestly(env);
    LoansIgnoreTakerId(env);
    R.OrderlyShelf(l, env.book);
    var e := R.ExchangeOf(l, env.book);
    BookIgnoresTakerId(Started(e, order), order, id, LimitOf(order, kind), LoanSettler(env));
    assert Place(e, order.(id := id), kind, LoanSettler(env)) == Place(e, order, kind, LoanSettler(env));
  }

  lemma RecordedVerifies(rules: Rules, s: Loans, i: Item, processed: Item)
    requires Unread(rules) && (i.cancel ==> processed.lendingId == i.lendingId)
    ensures rules.verify(s, Recorded(i, processed)) == rules.verify(s, i)
  {
    var noted := i.(extra := processed.extra);
    assert rules.verify(s, noted) == rules.verify(s, i);
    if !i.cancel {
      assert rules.verify(s, noted.(lendingId := processed.lendingId)) == rules.verify(s, noted);
      assert Recorded(i, processed) == noted.(lendingId := processed.lendingId);
    } else {
      assert Recorded(i, processed) == noted;
    }
  }

  /** The recorded order asks for what the original asked for, up to the id a new order rests under. */
  lemma RecordedAction(rules: Rules, l: R.Lending, i: Item, a: R.Action, j: Item)
    requires R.Valid(l) && ActionOf(rules, l, i) == Some(a)
    requires j == i.(lendingId := j.lendingId, extra := j.extra) && (!a.Match? ==> j.lendingId == i.lendingId)
    ensures var b := ActionOf(rules, l, j);
      b.Some? && R.Act(l, b.value) == R.Act(l, a) && (Halts(l, b.value) <==> Halts(l, a))
  {
    hide R.Valid, R.Act, R.TradeStep, Owns, KeyOf;
    if a.Match? {
      assert OrderOf(j) == OrderOf(i).(id := j.lendingId);
      MatchIgnoresId(l, a.env, OrderOf(i), j.lendingId, a.kind);
    } else {
      SameAction(rules, l, i, j);
    }
  }

  lemma SameAction(rules: Rules, l: R.Lending, i: Item, j: Item)
    requires j == i.(extra := j.extra)
    ensures i.cancel || !i.purpose.Loan? ==> ActionOf(rules, l, j) == ActionOf(rules, l, i)
  {
  }

  /**
   Processing what was recorded does what processing the original did, to the last entry of the time index: also a
   failed match, which is recorded although it was undone, leaves the same stale entries again. The one thing it takes
   is that the note of a cancellation is short enough to be accepted.
   */
  lemma RecordedReplays(rules: Rules, d: Desk, i: Item)
    requires Unread(rules) && R.Valid(d.lending) && ApplyOrder(rules, d, i).Applied?
    ensures var r := ApplyOrder(rules, d, i);
      var again := ApplyOrder(rules, d, Recorded(i, r.item));
      && again.Applied?
      && (|r.item.extra| <= MAX_EXTRA || r.item == i ==> again.state == r.state)
      && (|r.item.extra| > MAX_EXTRA && r.item != i ==> again.state == d.(nonces := r.state.nonces) != r.state)
  {
    hide R.Valid, R.Act, ActionOf, Processed, Halts;
    var r := ApplyOrder(rules, d, i);
    var a := ActionOf(rules, d.lending, i);
    if rules.verify(d.lending.loans, i) && |i.extra| <= MAX_EXTRA && a.Some? {
      ProcessedKinds(rules, d.lending, a.value, i);
      RecordedVerifies(rules, d.lending.loans, i, r.item);
      RecordedAction(rules, d.lending, i, a.value, Recorded(i, r.item));
    }
  }

  /**
   A match that is undone is recorded as it came, and a validator that replays it undoes it too and is left with the
   same entries in the time index, no longer exact if the match had filled something.
   */
  lemma UndoneReplays(rules: Rules, d: Desk, i: Item, a: R.Action)
    requires Unread(rules) && R.Valid(d.lending) && Admissible(rules, i) && i.nonce == NonceOf(d, i.party.user)
    requires rules.verify(d.lending.loans, i) && |i.extra| <= MAX_EXTRA && ActionOf(rules, d.lending, i) == Some(a)
    requires a.Match? && R.MatchOrder(d.lending, a).Rejected?
    ensures var run, r := R.MatchOrder(d.lending, a).run, ApplyOrder(rules, d, i);
      && r.Applied? && r.item == i && ApplyOrder(rules, d, Recorded(i, r.item)) == r
      && r.state.lending == d.lending.(loans := R.Undone(d.lending.loans, run.state))
      && (L.Indexed(d.lending.loans.state) ==> (L.Indexed(r.state.lending.loans.state) <==> run.fills == []))
  {
    hide R.Valid, R.MatchOrder, R.Undone, L.Indexed, Admissible;
    ActionProper(rules, d.lending, i);
    R.ActKeeps(d.lending, a);
  }

  /** A new id goes to a matched order, a note to a cancelled one, which then leaves the book. */
  lemma ProcessedKinds(rules: Rules, l: R.Lending, a: R.Action, i: Item)
    requires R.Valid(l) && ActionOf(rules, l, i) == Some(a)
    ensures var p := Processed(rules, l, a, i);
      && (i.cancel || !a.Match? ==> p.lendingId == i.lendingId)
      && (p.extra != i.extra ==> p == i.(extra := p.extra) && R.Act(l, a) != l)
  {
    hide R.Valid, Note, R.MatchOrder, CancelLoans, Cancellable;
    var p := Processed(rules, l, a, i);
    if p.extra != i.extra {
      var shelf := R.ShelfOf(l, a.env.book);
      assert a.id in shelf.orders && a.id !in R.ShelfOf(R.Act(l, a), a.env.book).orders;
    }
  }

  /** Where fees and prices are words, every note fits. */
  lemma NotesReplay(rules: Rules, d: Desk, i: Item)
    requires Unread(rules) && WordSized(rules) && R.Valid(d.lending) && ApplyOrder(rules, d, i).Applied?
    ensures var r := ApplyOrder(rules, d, i);
      var again := ApplyOrder(rules, d, Recorded(i, r.item));
      again.Applied? && again.state == r.state
  {
    hide R.Valid, R.Act, Note, R.Cancels;
    RecordedReplays(rules, d, i);
    var a := ActionOf(rules, d.lending, i);
    if a.Some? && a.value.Cancel? {
      var o := R.ShelfOf(d.lending, a.value.env.book).orders[a.value.id];
      assert rules.cancelFee(d.lending.loans, o) < WORD && rules.cancelPrice(d.lending.loans, o) < WORD;
      NoteFits(rules.cancelFee(d.lending.loans, o), rules.cancelPrice(d.lending.loans, o));
    }
  }

  ghost predicate AllAdmissible(rules: Rules, items: seq<Item>) {
    forall k | 0 <= k < |items| :: Admissible(rules, items[k])
  }

  /** ValidateLendingOrder: an order that does not apply makes the block invalid. */
  ghost function Replay(rules: Rules, d: Desk, items: seq<Item>): (r: Option<Desk>)
    requires R.Valid(d.lending) && AllAdmissible(rules, items)
    ensures r.Some? ==> R.Valid(r.value.lending)
    decreases |items|
  {
    if items == [] then Some(d)
    else
      match Replay(rules, d, items[..|items| - 1])
      case None => None
      case Some(before) =>
        ApplyKeeps(rules, before, items[|items| - 1]);
        var r := ApplyOrder(rules, before, items[|items| - 1]);
        if r.Applied? then Some(r.state) else None
  }

  lemma ReplayNone(rules: Rules, d: Desk)
    requires R.Valid(d.lending)
    ensures Replay(rules, d, []) == Some(d)
  {
  }

  lemma ReplayStep(rules: Rules, d: Desk, items: seq<Item>, i: Item)
    requires R.Valid(d.lending) && AllAdmissible(rules, items) && Admissible(rules, i) && Replay(rules, d, items).Some?
    ensures var r := ApplyOrder(rules, Replay(rules, d, items).value, i);
      AllAdmissible(rules, items + [i]) && Replay(rules, d, items + [i]) == if r.Applied? then Some(r.state) else None
  {
    hide R.Valid, ApplyOrder, Admissible;
    assert (items + [i])[..|items|] == items;
  }

  lemma {:induction false} ReplayFails(rules: Rules, d: Desk, items: seq<Item>, k: nat)
    requires R.Valid(d.lending) && AllAdmissible(rules, items) && k <= |items| && Replay(rules, d, items[..k]).None?
    ensures Replay(rules, d, items).None?
    decreases |items| - k
  {
    hide R.Valid, ApplyOrder, Admissible;
    if k == |items| {
      assert items[..k] == items;
    } else {
      assert items[..k + 1][..k] == items[..k];
      ReplayFails(rules, d, items, k + 1);
    }
  }

  /** Over a block of orders the lock account's balance less the locked amounts is constant for every token. */
  lemma {:induction false} ReplayKeepsCollateral(rules: Rules, d: Desk, items: seq<Item>)
    requires R.Valid(d.lending) && AllAdmissible(rules, items) && Replay(rules, d, items).Some?
    ensures R.SameSlack(d.lending.loans.state, Replay(rules, d, items).value.lending.loans.state)
    decreases |items|
  {
    hide R.Valid, ApplyOrder, Admissible, L.Slack;
    if items != [] {
      var n := |items| - 1;
      ReplayKeepsCollateral(rules, d, items[..n]);
      ApplyKeeps(rules, Replay(rules, d, items[..n]).value, items[n]);
    }
  }

  /**
   A trade that is gone or changed at the end of a block was repaid or topped up by its borrower through its relayer.
   */
  lemma {:induction false} ChangedOnlyBy(rules: Rules, d: Desk, items: seq<Item>, k: L.Key) returns (n: nat)
    requires R.Valid(d.lending) && AllAdmissible(rules, items) && Replay(rules, d, items).Some?
      && k in d.lending.loans.state.trades
    ensures var before, after := d.lending.loans.state.trades, Replay(rules, d, items).value.lending.loans.state.trades;
      (k in after && after[k] == before[k]) || (n < |items| && Touches(rules, before[k], items[n], k))
    decreases |items|
  {
    hide R.Valid, ApplyOrder, Admissible, KeyOf;
    n := 0;
    if items != [] {
      var last := |items| - 1;
      n := ChangedOnlyBy(rules, d, items[..last], k);
      var before, mid := d.lending.loans.state.trades, Replay(rules, d, items[..last]).value;
      if k in mid.lending.loans.state.trades && mid.lending.loans.state.trades[k] == before[k] {
        TradesStay(rules, mid, items[last], k);
        var after := Replay(rules, d, items).value.lending.loans.state.trades;
        n := if k in after && after[k] == before[k] then n else last;
      }
    }
  }

  // ----- the loops in place

  /**
   The matching of an order on a fresh engine that holds the book; a failed match is undone but for the time index.
   */
  method MatchOnBook(l: R.Lending, a: R.Action) returns (after: R.Lending)
    requires R.Valid(l) && a.Match? && R.Matchable(a)
    ensures after == R.Act(l, a)
  {
    hide Place, MatchBook, LoanSettler, R.Valid, Honest, Uncrossed, R.Orderly;
    var book, shelf := a.env.book, R.ShelfOf(l, a.env.book);
    LendsHonestly(a.env);
    R.OrderlyShelf(l, book);
    var engine := new Engine<Loans, Party>(LoanSettler(a.env), l.loans);
    engine.book, engine.lastId := shelf.orders, shelf.lastId;
    var ok := engine.ProcessOrder(a.order, a.kind);
    if ok {
      after := R.Lending(engine.state, l.shelves[book := R.Shelf(engine.book, engine.lastId)]);
    } else {
      after := l.(loans := R.Undone(l.loans, engine.state));
    }
  }

  /** ApplyOrder in place. */
  method Apply(rules: Rules, d: Desk, i: Item) returns (r: Result)
    requires R.Valid(d.lending)
    ensures r == ApplyOrder(rules, d, i)
  {
    hide R.Valid, R.MatchOrder, CancelLoans, R.TradeStep, Note, Cancellable;
    var user := i.party.user;
    var nonce := if user in d.nonces then d.nonces[user] else 0;
    if nonce < i.nonce { return NonceTooHigh; }
    if nonce > i.nonce { return NonceTooLow; }
    var counted := d.(nonces := d.nonces[user := nonce + 1]);
    if !rules.verify(d.lending.loans, i) || |i.extra| > MAX_EXTRA { return Applied(counted, i); }
    var wanted := ActionOf(rules, d.lending, i);
    if wanted.None? { return Applied(counted, i); }
    var a := wanted.value;
    if a.Match? {
      var after := MatchOnBook(d.lending, a);
      var was, now := R.ShelfOf(d.lending, a.env.book).lastId, R.ShelfOf(after, a.env.book).lastId;
      return Applied(counted.(lending := after), if now > was then i.(lendingId := now) else i);
    }
    if a.Cancel? {
      if !R.Cancels(d.lending, a) { return Applied(counted, i); }
      var shelf := R.ShelfOf(d.lending, a.env.book);
      var order := shelf.orders[a.id];
      var left := R.Shelf(shelf.orders - {a.id}, shelf.lastId);
      return Applied(counted.(lending := R.Lending(CancelLoans(a.env, d.lending.loans, order, a.fee),
                                                   d.lending.shelves[a.env.book := left])),
                     i.(extra := Note(a.fee, rules.cancelPrice(d.lending.loans, order))));
    }
    match R.TradeStep(d.lending.loans.state, a)
    case Panicked => return Halted;
    case Step(after, _) => return Applied(counted.(lending := d.lending.(loans := d.lending.loans.(state := after))),
                                          i);
  }

  datatype Pending = Pending(item: Item, decodable: bool)

  /**
   How the loop over the pending orders ends: it returns; a division by zero halts the node; or it goes round forever.
   */
  datatype Ending = Finished | Stopped | Endless

  ghost predicate AllPending(rules: Rules, queues: map<Address, seq<Pending>>) {
    forall a | a in queues :: forall k | 0 <= k < |queues[a]| :: Admissible(rules, queues[a][k].item)
  }

  ghost predicate AllDecodable(queues: map<Address, seq<Pending>>) {
    forall a | a in queues :: forall k | 0 <= k < |queues[a]| :: queues[a][k].decodable
  }

  ghost function Waiting(queues: map<Address, seq<Pending>>): int {
    Sum(queues.Keys, (a: Address) => LengthOf(queues, a))
  }

  ghost function LengthOf(queues: map<Address, seq<Pending>>, a: Address): int {
    if a in queues then |queues[a]| else 0
  }

  /**
   ProcessOrderPending: takes the next order of any account, drops an order whose nonce is too low and an account
   whose nonce is too high, and records every order that applied, also one whose match failed. What is recorded
   replays from the same start to the same end. An order whose signature does not decode is never taken off, so the
   loop ends only without it.
   */
  method ProcessOrderPending(
      rules: Rules, start: Desk, pending: map<Address, seq<Pending>>)
    returns (d: Desk, recorded: seq<Item>, ending: Ending)
    requires Unread(rules) && WordSized(rules) && R.Valid(start.lending) && AllPending(rules, pending)
    ensures AllAdmissible(rules, recorded) && Replay(rules, start, recorded) == Some(d)
    ensures AllDecodable(pending) ==> ending != Endless
  {
    hide ApplyOrder, R.Valid, Replay, Unread, WordSized, Admissible, AllPending, AllDecodable, Waiting, AllAdmissible;
    d, recorded := start, [];
    assert AllAdmissible(rules, []) by { NoneAdmissible(rules); }
    ReplayNone(rules, start);
    var queues: map<Address, seq<Pending>> := pending;
    while true
      invariant AllPending(rules, queues) && (AllDecodable(pending) ==> AllDecodable(queues))
      invariant R.Valid(d.lending) && AllAdmissible(rules, recorded) && Replay(rules, start, recorded) == Some(d)
      decreases Waiting(queues), |queues|
    {
      var live := set a | a in queues && queues[a] != [];
      if live == {} { return d, recorded, Finished; }
      var account: Address :| account in live;
      HeadOf(rules, queues, account);
      var head := queues[account][0];
      if !head.decodable { return d, recorded, Endless; }
      var r := Apply(rules, d, head.item);
      match r {
        case NonceTooLow => queues := queues[account := queues[account][1..]];
        case NonceTooHigh => queues := queues - {account};
        case Halted => return d, recorded, Stopped;
        case Applied(after, processed) =>
          queues := queues[account := queues[account][1..]];
          NotesReplay(rules, d, head.item);
          RecordedAdmissible(rules, head.item, processed);
          ReplayStep(rules, start, recorded, Recorded(head.item, processed));
          ApplyKeeps(rules, d, head.item);
          recorded := recorded + [Recorded(head.item, processed)];
          d := after;
      }
    }
  }

  lemma NoneAdmissible(rules: Rules)
    ensures AllAdmissible(rules, [])
  {
  }

  lemma RecordedAdmissible(rules: Rules, i: Item, processed: Item)
    requires Admissible(rules, i)
    ensures Admissible(rules, Recorded(i, processed))
  {
  }

  /** The next order of an account, and the queues without it or without the account. */
  lemma HeadOf(rules: Rules, queues: map<Address, seq<Pending>>, a: Address)
    requires a in queues && queues[a] != [] && AllPending(rules, queues)
    ensures Admissible(rules, queues[a][0].item) && (AllDecodable(queues) ==> queues[a][0].decodable)
    ensures AllPending(rules, queues[a := queues[a][1..]]) && AllPending(rules, queues - {a})
    ensures AllDecodable(queues) ==> AllDecodable(queues[a := queues[a][1..]]) && AllDecodable(queues - {a})
    ensures 0 <= Waiting(queues[a := queues[a][1..]]) < Waiting(queues) && 0 <= Waiting(queues - {a}) < Waiting(queues)
  {
    hide Admissible;
    var shorter, without := queues[a := queues[a][1..]], queues - {a};
    assert shorter.Keys == queues.Keys && without.Keys == queues.Keys - {a};
    WaitingWithout(queues, a);
    WaitingWithout(shorter, a);
    assert shorter - {a} == without;
    WaitingPositive(without);
  }

  lemma WaitingWithout(queues: map<Address, seq<Pending>>, a: Address)
    requires a in queues
    ensures Waiting(queues) == Waiting(queues - {a}) + |queues[a]|
  {
    var f, g := (x: Address) => LengthOf(queues, x), (x: Address) => LengthOf(queues - {a}, x);
    SumRemove(queues.Keys, f, a);
    SumCongruence(queues.Keys - {a}, f, g);
    assert (queues - {a}).Keys == queues.Keys - {a};
  }

  lemma WaitingPositive(queues: map<Address, seq<Pending>>)
    ensures Waiting(queues) >= 0
  {
    SumNonNegative(queues.Keys, (a: Address) => LengthOf(queues, a));
  }

  method ValidateLendingOrder(rules: Rules, start: Desk, items: seq<Item>) returns (d: Desk, ok: bool)
    requires R.Valid(start.lending) && AllAdmissible(rules, items)
    ensures Replay(rules, start, items) == if ok then Some(d) else None
  {
    hide ApplyOrder, R.Valid, Replay, Admissible;
    d, ok := start, true;
    ReplayNone(rules, start);
    for k := 0 to |items|
      invariant R.Valid(d.lending) && Replay(rules, start, items[..k]) == Some(d)
    {
      var r := Apply(rules, d, items[k]);
      ReplayStep(rules, start, items[..k], items[k]);
      assert items[..k] + [items[k]] == items[..k + 1];
      ApplyKeeps(rules, d, items[k]);
      if !r.Applied? {
        ReplayFails(rules, start, items, k + 1);
        ok := false;
        return;
      }
      d := r.state;
    }
    assert items[..|items|] == items;
  }
}
