/**
 Settling a match through a balance overlay (DoSettleBalance of XDCx/order_processor.go and
 XDCxlending/order_processor.go): every new balance is computed against an overlay over the state, the
 masternode is paid, and then the overlay is written back.
 */
module BalanceOverlay {
  import opened Options
  import opened Ledger
  import opened Matching

  /** Token balances are stored in 256-bit words. */
  const WORD := 0x1_0000000000000000_0000000000000000_0000000000000000_0000000000000000

  /** An amount that an account receives or hands over. */
  datatype Entry = Entry(account: Account, credit: bool, amount: nat)

  predicate Known(tokens: set<Token>, t: Token) {
    t == XDC_NATIVE || t in tokens
  }

  /** CheckAddTokenBalance and CheckSubTokenBalance on the balance they read. */
  predicate Accepts(tokens: set<Token>, e: Entry, balance: nat) {
    && Known(tokens, e.account.token)
    && (if e.credit then e.account.token == XDC_NATIVE || balance + e.amount < WORD else e.amount <= balance)
  }

  function Moved(e: Entry, balance: nat): nat
    requires !e.credit ==> e.amount <= balance
  {
    if e.credit then balance + e.amount else balance - e.amount
  }

  // ----- one after another

  function Apply(b: Balances, tokens: set<Token>, e: Entry): Option<Balances> {
    if Accepts(tokens, e, BalanceOf(b, e.account)) then Some(b[e.account := Moved(e, BalanceOf(b, e.account))])
    else None
  }

  function ApplyAll(b: Balances, tokens: set<Token>, es: seq<Entry>): Option<Balances>
    decreases |es|
  {
    if es == [] then Some(b)
    else
      match ApplyAll(b, tokens, es[..|es| - 1])
      case None => None
      case Some(before) => Apply(before, tokens, es[|es| - 1])
  }

  // ----- through the overlay

  /** The overlay is read first. */
  function Read(b: Balances, overlay: Balances, a: Account): nat {
    if a in overlay then overlay[a] else BalanceOf(b, a)
  }

  function Check(b: Balances, overlay: Balances, tokens: set<Token>, e: Entry): Option<nat> {
    if Accepts(tokens, e, Read(b, overlay, e.account)) then Some(Moved(e, Read(b, overlay, e.account))) else None
  }

  function CheckAll(b: Balances, tokens: set<Token>, es: seq<Entry>): Option<Balances>
    decreases |es|
  {
    if es == [] then Some(map[])
    else
      match CheckAll(b, tokens, es[..|es| - 1])
      case None => None
      case Some(overlay) =>
        match Check(b, overlay, tokens, es[|es| - 1])
        case None => None
        case Some(v) => Some(overlay[es[|es| - 1].account := v])
  }

  lemma CheckAppend(b: Balances, tokens: set<Token>, es: seq<Entry>, e: Entry)
    ensures CheckAll(b, tokens, es + [e]) ==
      match CheckAll(b, tokens, es)
      case None => None
      case Some(overlay) =>
        match Check(b, overlay, tokens, e)
        case None => None
        case Some(v) => Some(overlay[e.account := v])
  {
    assert (es + [e])[..|es|] == es;
  }

  lemma CheckNone(b: Balances, tokens: set<Token>)
    ensures CheckAll(b, tokens, []) == Some(map[])
  {
  }

  /** A check phase that stops at an entry fails as a whole. */
  lemma {:induction false} FailedEarly(b: Balances, tokens: set<Token>, es: seq<Entry>, k: nat)
    requires k <= |es| && CheckAll(b, tokens, es[..k]).None?
    ensures CheckAll(b, tokens, es).None?
    decreases |es| - k
  {
    if k == |es| {
      assert es[..k] == es;
    } else {
      assert es[..k + 1] == es[..k] + [es[k]];
      CheckAppend(b, tokens, es[..k], es[k]);
      FailedEarly(b, tokens, es, k + 1);
    }
  }

  /** CheckAddTokenBalance and CheckSubTokenBalance. */
  method CheckBalance(b: Balances, tokens: set<Token>, overlay: Balances, e: Entry) returns (v: Option<nat>)
    ensures v == Check(b, overlay, tokens, e)
  {
    var balance := if e.account in overlay then overlay[e.account] else if e.account in b then b[e.account] else 0;
    if e.account.token != XDC_NATIVE && e.account.token !in tokens {
      return None;
    }
    if e.credit {
      if e.account.token != XDC_NATIVE && balance + e.amount >= WORD {
        return None;
      }
      return Some(balance + e.amount);
    }
    if balance < e.amount {
      return None;
    }
    return Some(balance - e.amount);
  }

  /** One step of the check phase: a new balance that later steps read. */
  method Stage(
      b: Balances, tokens: set<Token>, overlay: Balances, e: Entry, ghost staged: seq<Entry>)
    returns (v: Option<nat>, after: Balances)
    requires CheckAll(b, tokens, staged) == Some(overlay)
    ensures CheckAll(b, tokens, staged + [e]) == if v.Some? then Some(after) else None
    ensures v.Some? ==> after == overlay[e.account := v.value]
  {
    CheckAppend(b, tokens, staged, e);
    v := CheckBalance(b, tokens, overlay, e);
    after := if v.Some? then overlay[e.account := v.value] else overlay;
  }

  lemma CheckNext(
      b: Balances, tokens: set<Token>, es: seq<Entry>, overlay: Balances, e: Entry) returns (after: Balances)
    requires CheckAll(b, tokens, es) == Some(overlay) && Accepts(tokens, e, Read(b, overlay, e.account))
    ensures after == overlay[e.account := Moved(e, Read(b, overlay, e.account))]
    ensures CheckAll(b, tokens, es + [e]) == Some(after)
  {
    CheckAppend(b, tokens, es, e);
    after := overlay[e.account := Moved(e, Read(b, overlay, e.account))];
  }

  /** The accounts that the entries write. */
  function Written(es: seq<Entry>): set<Account>
    decreases |es|
  {
    if es == [] then {} else Written(es[..|es| - 1]) + {es[|es| - 1].account}
  }

  /** The overlay over the state is at every point the state that applying the entries one after another reaches. */
  lemma {:induction false} OverlayIsSequential(b: Balances, tokens: set<Token>, es: seq<Entry>)
    ensures CheckAll(b, tokens, es).None? <==> ApplyAll(b, tokens, es).None?
    ensures CheckAll(b, tokens, es).Some? ==>
      && ApplyAll(b, tokens, es) == Some(b + CheckAll(b, tokens, es).value)
      && CheckAll(b, tokens, es).value.Keys == Written(es)
    decreases |es|
  {
    if es == [] {
      assert b + map[] == b;
    } else {
      var rest, last := es[..|es| - 1], es[|es| - 1];
      OverlayIsSequential(b, tokens, rest);
      match CheckAll(b, tokens, rest)
      case None =>
      case Some(overlay) =>
        assert BalanceOf(b + overlay, last.account) == Read(b, overlay, last.account);
        if Check(b, overlay, tokens, last).Some? {
          var v := Check(b, overlay, tokens, last).value;
          assert b + overlay[last.account := v] == (b + overlay)[last.account := v];
        }
    }
  }

  // ----- conservation

  function Signed(e: Entry, t: Token): int {
    if e.account.token != t then 0 else if e.credit then e.amount else 0 - e.amount
  }

  /** What the entries add to the supply of a token. */
  function Net(es: seq<Entry>, t: Token): int
    decreases |es|
  {
    if es == [] then 0
    else Net(es[..|es| - 1], t) + Signed(es[|es| - 1], t)
  }

  lemma NetNone(t: Token)
    ensures Net([], t) == 0 && Written([]) == {}
  {
  }

  lemma NetAppend(es: seq<Entry>, e: Entry, t: Token)
    ensures Net(es + [e], t) == Net(es, t) + Signed(e, t)
    ensures Written(es + [e]) == Written(es) + {e.account}
  {
    assert (es + [e])[..|es|] == es;
  }

  lemma {:induction false} ApplyMovesSupply(b: Balances, tokens: set<Token>, es: seq<Entry>, t: Token)
    ensures ApplyAll(b, tokens, es).Some? ==> Supply(ApplyAll(b, tokens, es).value, t) == Supply(b, t) + Net(es, t)
    decreases |es|
  {
    if es != [] {
      ApplyMovesSupply(b, tokens, es[..|es| - 1], t);
      var before, e := ApplyAll(b, tokens, es[..|es| - 1]), es[|es| - 1];
      if before.Some? && Accepts(tokens, e, BalanceOf(before.value, e.account)) {
        SupplyWrite(before.value, e.account, Moved(e, BalanceOf(before.value, e.account)), t);
      }
    }
  }

  /** One entry's part in an account. */
  function At(e: Entry, a: Account): int {
    if e.account != a then 0 else if e.credit then e.amount else 0 - e.amount
  }

  /** What the entries add to one account. */
  function NetAt(es: seq<Entry>, a: Account): int
    decreases |es|
  {
    if es == [] then 0 else NetAt(es[..|es| - 1], a) + At(es[|es| - 1], a)
  }

  lemma NetAtAppend(es: seq<Entry>, e: Entry, a: Account)
    ensures NetAt(es + [e], a) == NetAt(es, a) + At(e, a)
  {
    assert (es + [e])[..|es|] == es;
  }

  lemma {:induction false} ApplyMovesAccount(b: Balances, tokens: set<Token>, es: seq<Entry>, a: Account)
    ensures ApplyAll(b, tokens, es).Some? ==>
      BalanceOf(ApplyAll(b, tokens, es).value, a) == BalanceOf(b, a) + NetAt(es, a)
    decreases |es|
  {
    if es != [] {
      ApplyMovesAccount(b, tokens, es[..|es| - 1], a);
    }
  }

  lemma NoneAt(a: Account)
    ensures NetAt([], a) == 0
  {
  }

  // ----- the fee and the write-back

  /** The registration contract pays the masternode's owner, where it can. */
  function Paid(b: Balances, contract: Address, owner: Address, fee: nat): Option<Balances> {
    var from, to := Account(XDC_NATIVE, contract), Account(XDC_NATIVE, owner);
    if BalanceOf(b, from) < fee then None
    else
      var drawn := b[from := BalanceOf(b, from) - fee];
      Some(drawn[to := BalanceOf(drawn, to) + fee])
  }

  /**
   Writing the overlay over the paid state is the same as paying after the overlay, exactly when neither the
   contract nor the masternode's owner was written, or they are one account that can still pay.
   */
  lemma WriteBackExact(b: Balances, overlay: Balances, contract: Address, owner: Address, fee: nat)
    requires fee > 0 && Paid(b, contract, owner, fee).Some?
    ensures Paid(b + overlay, contract, owner, fee) == Some(Paid(b, contract, owner, fee).value + overlay) <==>
      if contract == owner then fee <= Read(b, overlay, Account(XDC_NATIVE, contract))
      else Account(XDC_NATIVE, contract) !in overlay && Account(XDC_NATIVE, owner) !in overlay
  {
    var from, to := Account(XDC_NATIVE, contract), Account(XDC_NATIVE, owner);
    var written := Paid(b, contract, owner, fee).value + overlay;
    assert BalanceOf(b + overlay, from) == Read(b, overlay, from);
    assert BalanceOf(b + overlay, to) == Read(b, overlay, to);
    var paid := Paid(b + overlay, contract, owner, fee);
    if paid.Some? {
      if contract == owner || (from !in overlay && to !in overlay) {
        assert written == paid.value;
      } else if from in overlay {
        assert written[from] != paid.value[from];
      } else {
        assert written[to] != paid.value[to];
      }
    }
  }

  /** What the payment does to the supply once the overlay is written over it: a written account forgets its part. */
  lemma WriteBackSupply(b: Balances, overlay: Balances, contract: Address, owner: Address, fee: nat, t: Token)
    requires Paid(b, contract, owner, fee).Some?
    ensures Supply(Paid(b, contract, owner, fee).value + overlay, t) == Supply(b + overlay, t) +
      if t != XDC_NATIVE then 0
      else (if Account(XDC_NATIVE, owner) in overlay then 0
            else fee) - (if Account(XDC_NATIVE, contract) in overlay then 0 else fee)
  {
    hide Supply;
    var from, to := Account(XDC_NATIVE, contract), Account(XDC_NATIVE, owner);
    var drawn := b[from := BalanceOf(b, from) - fee];
    SupplyUnder(b, overlay, from, BalanceOf(b, from) - fee, t);
    SupplyUnder(drawn, overlay, to, BalanceOf(drawn, to) + fee, t);
  }

  /** A write under an overlay moves the supply unless the overlay covers it. */
  lemma SupplyUnder(b: Balances, overlay: Balances, a: Account, v: nat, t: Token)
    ensures Supply(b[a := v] + overlay, t) == Supply(b + overlay, t)
      + if a.token != t || a in overlay then 0 else v - BalanceOf(b, a)
  {
    hide Supply;
    var over := if a in overlay then overlay[a] else v;
    assert b[a := v] + overlay == (b + overlay)[a := over];
    SupplyWrite(b + overlay, a, over, t);
  }
}
