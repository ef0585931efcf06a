/** Token balances, as the state database keeps them: one amount per token and account owner. */
module Ledger {
  import opened Sums

  type Address = nat
  type Token = nat

  /** The native coin; every other token is a contract with its own balance mapping. */
  const XDC_NATIVE: Token := 1
  /** The account that holds the collateral of every open lending trade. */
  const LENDING_LOCK: Address := 0x11

  datatype Account = Account(token: Token, owner: Address)
  type Balances = map<Account, nat>

  /** An account that was never written reads as zero. */
  function BalanceOf(b: Balances, a: Account): (v: nat)
    ensures a in b ==> v == b[a]
    ensures a !in b ==> v == 0
  {
    if a in b then b[a] else 0
  }

  /** AddTokenBalance. */
  function Credit(b: Balances, a: Account, v: nat): (r: Balances)
    ensures BalanceOf(r, a) == BalanceOf(b, a) + v
    ensures forall o: Account | o != a :: BalanceOf(r, o) == BalanceOf(b, o)
  {
    b[a := BalanceOf(b, a) + v]
  }

  /** SubTokenBalance where the caller only logs the failure: too small a balance is left as it is. */
  function Debit(b: Balances, a: Account, v: nat): (r: Balances)
    ensures BalanceOf(b, a) >= v ==> BalanceOf(r, a) == BalanceOf(b, a) - v
    ensures BalanceOf(b, a) < v ==> r == b
    ensures forall o: Account | o != a :: BalanceOf(r, o) == BalanceOf(b, o)
  {
    if BalanceOf(b, a) < v then b else b[a := BalanceOf(b, a) - v]
  }

  ghost function Holders(b: Balances, t: Token): set<Account> {
    set a | a in b && a.token == t
  }

  /** The total amount of token t over all accounts. */
  ghost function Supply(b: Balances, t: Token): int {
    Sum(Holders(b, t), (a: Account) => BalanceOf(b, a))
  }

  /** Writing one account moves the supply of its token by the difference, and no other supply. */
  lemma SupplyWrite(b: Balances, a: Account, v: nat, t: Token)
    ensures Supply(b[a := v], t) == Supply(b, t) + if a.token == t then v - BalanceOf(b, a) else 0
  {
    var c := b[a := v];
    var f := (x: Account) => BalanceOf(b, x);
    var g := (x: Account) => BalanceOf(c, x);
    if a.token != t {
      assert Holders(c, t) == Holders(b, t);
      SumCongruence(Holders(b, t), f, g);
    } else if a in b {
      assert Holders(c, t) == Holders(b, t);
      SumUpdate(Holders(b, t), f, g, a);
    } else {
      assert Holders(c, t) == Holders(b, t) + {a};
      SumInsert(Holders(b, t), g, a);
      SumCongruence(Holders(b, t), f, g);
    }
  }

  lemma SupplyCredit(b: Balances, a: Account, v: nat, t: Token)
    ensures Supply(Credit(b, a, v), t) == Supply(b, t) + if a.token == t then v else 0
  {
    SupplyWrite(b, a, BalanceOf(b, a) + v, t);
  }

  lemma SupplyDebit(b: Balances, a: Account, v: nat, t: Token)
    requires v <= BalanceOf(b, a)
    ensures Supply(Debit(b, a, v), t) == Supply(b, t) - if a.token == t then v else 0
  {
    SupplyWrite(b, a, BalanceOf(b, a) - v, t);
  }

  /** No account holds more than the supply. */
  lemma BalanceAtMostSupply(b: Balances, a: Account)
    ensures 0 <= BalanceOf(b, a) <= Supply(b, a.token)
  {
    var f := (x: Account) => BalanceOf(b, x);
    SumNonNegative(Holders(b, a.token), f);
    if a in b {
      SumBoundsTerm(Holders(b, a.token), f, a);
    }
  }
}
