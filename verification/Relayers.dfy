/**
 What trading and lending share about relayers and their fees (XDCx/tradingstate/relayer_state.go,
 XDCxlending/lendingstate/relayer.go).
 */
module Relayers {
  import opened Options
  import opened Sums
  import opened Division
  import opened Ledger
  import opened BalanceOverlay

  /** common/constants.go: what the deposit of a relayer keeps locked. */
  const RELAYER_LOCKED_FUND := 20_000 * 1_000_000_000_000_000_000

  /** GetTokenBalance. */
  function TokenBalance(tokens: set<Token>, b: Balances, owner: Address, t: Token): nat {
    if Known(tokens, t) then BalanceOf(b, Account(t, owner)) else 0
  }

  /** CheckRelayerFee: whether the deposit of a relayer stays above what is locked. */
  predicate CanPay(deposits: map<Address, nat>, relayer: Address, fee: nat) {
    ValueOf(deposits, relayer) - fee >= RELAYER_LOCKED_FUND
  }

  /** The registration contract owns at least what the relayers deposited. */
  ghost predicate Solvent(contract: Address, b: Balances, deposits: map<Address, nat>) {
    TotalOf<Address>(deposits) <= BalanceOf(b, Account(XDC_NATIVE, contract))
  }

  /** A fee, or the least one, that does not cover what the relayer itself pays for the match. */
  predicate Unpaid(token: Token, price: nat, decimal: nat, fee: nat, least: nat, cost: nat)
    requires decimal > 0
  {
    if token == XDC_NATIVE then 0 < fee <= cost || least <= cost
    else price > 0 && (0 < MulDiv(fee, price, decimal) <= cost || MulDiv(least, price, decimal) <= cost)
  }

  /** What a fee is worth in the native coin; without a price it cannot be told. */
  function Worth(token: Token, price: nat, decimal: nat, fee: nat): Option<nat>
    requires decimal > 0
  {
    if token == XDC_NATIVE then Some(fee)
    else if price > 0 then Some(MulDiv(fee, price, decimal))
    else None
  }

  /** A fee is worth nothing, more than it costs, or cannot be told. */
  predicate Worthwhile(token: Token, price: nat, decimal: nat, fee: nat, cost: nat)
    requires decimal > 0
  {
    var w := Worth(token, price, decimal, fee);
    w == None || w == Some(0) || w.value > cost
  }
}
