/**
 The average price of an epoch (XDCx/order_processor.go: processOrderList and
 UpdateMediumPriceBeforeEpoch). The average is updated trade by trade and rounded down each time.
 */
module EpochPrice {
  import opened Division
  import opened Matching

  /** The average price so far and the quantity it is over; nothing traded is zero. */
  datatype Average = Average(price: nat, quantity: nat)

  const NOTHING := Average(0, 0)

  function Record(a: Average, price: nat, quantity: nat): Average
    requires quantity > 0
  {
    if a.price == 0 || a.quantity == 0 then Average(price, quantity)
    else
      NonNegative(a.price * a.quantity + price * quantity, a.quantity + quantity);
      Average((a.price * a.quantity + price * quantity) / (a.quantity + quantity), a.quantity + quantity)
  }

  /** The trades of an epoch: a positive quantity at a positive price each. */
  ghost predicate Trades(fills: seq<Fill>) {
    forall i | 0 <= i < |fills| :: fills[i].price > 0 && fills[i].quantity > 0
  }

  function RecordAll(a: Average, fills: seq<Fill>): Average
    requires Trades(fills)
    decreases |fills|
  {
    if fills == [] then a
    else var n := |fills| - 1; Record(RecordAll(a, fills[..n]), fills[n].price, fills[n].quantity)
  }

  function Value(fills: seq<Fill>): nat
    decreases |fills|
  {
    if fills == [] then 0 else var n := |fills| - 1; Value(fills[..n]) + fills[n].price * fills[n].quantity
  }

  ghost predicate Within(fills: seq<Fill>, price: nat) {
    && (exists i :: 0 <= i < |fills| && fills[i].price <= price)
    && (exists i :: 0 <= i < |fills| && price <= fills[i].price)
  }

  /** The rounded average of two amounts lies between their prices. */
  lemma Between(p: nat, q: nat, price: nat, quantity: nat)
    requires q > 0 && quantity > 0
    ensures var low, high := if p <= price then p else price, if p <= price then price else p;
      low <= (p * q + price * quantity) / (q + quantity) <= high
  {
    var low, high := if p <= price then p else price, if p <= price then price else p;
    var value := p * q + price * quantity;
    MulOrder(low, p, q);
    MulOrder(low, price, quantity);
    MulOrder(p, high, q);
    MulOrder(price, high, quantity);
    Distribute(low, q, quantity);
    Distribute(high, q, quantity);
    AtLeast(value, q + quantity, low);
    Below(value, q + quantity, high + 1);
    assert (high + 1) * (q + quantity) == high * (q + quantity) + (q + quantity);
  }

  lemma RecordedWithin(fills: seq<Fill>, a: Average, f: Fill)
    requires f.price > 0 && f.quantity > 0
    requires fills == [] ==> a == NOTHING
    requires fills != [] ==> a.price > 0 && a.quantity > 0 && Within(fills, a.price)
    ensures Within(fills + [f], Record(a, f.price, f.quantity).price) && Record(a, f.price, f.quantity).price > 0
  {
    var more, r := fills + [f], Record(a, f.price, f.quantity);
    assert more[|fills|] == f;
    if fills != [] {
      Between(a.price, a.quantity, f.price, f.quantity);
      var i :| 0 <= i < |fills| && fills[i].price <= a.price;
      var j :| 0 <= j < |fills| && a.price <= fills[j].price;
      assert more[i] == fills[i] && more[j] == fills[j];
    }
  }

  /** The rounding loses less than one unit of price, weighted by the whole quantity, with each trade. */
  lemma RecordedValue(a: Average, value: nat, n: nat, price: nat, quantity: nat)
    requires a.price > 0 && a.quantity > 0 && quantity > 0
    requires a.price * a.quantity <= value < (a.price + n) * a.quantity
    ensures var r := Record(a, price, quantity);
      r.price * r.quantity <= value + price * quantity < (r.price + n + 1) * r.quantity
  {
    var r := Record(a, price, quantity);
    Floor(a.price * a.quantity + price * quantity, a.quantity + quantity);
    Distribute(a.quantity, a.price, n);
    Distribute(r.quantity, r.price, n);
    Distribute(r.quantity, r.price + n, 1);
    MulOrder(a.quantity, r.quantity, n + 1);
    assert n * a.quantity <= n * r.quantity by {
      if n > 0 { MulOrder(a.quantity, r.quantity, n); }
    }
  }

  /**
   The stored average lies between the lowest and the highest price traded in the epoch, never exceeds the exact
   volume-weighted average, and falls short of it by less than the number of trades.
   */
  lemma {:induction false} AverageOfEpoch(fills: seq<Fill>)
    requires Trades(fills)
    ensures var a := RecordAll(NOTHING, fills);
      if fills == [] then a == NOTHING
      else
        && a.price > 0 && a.quantity == Total(fills) > 0 && Within(fills, a.price)
        && a.price * a.quantity <= Value(fills) < (a.price + |fills|) * a.quantity
    decreases |fills|
  {
    if fills != [] {
      var n := |fills| - 1;
      var rest, f := fills[..n], fills[n];
      AverageOfEpoch(rest);
      var a := RecordAll(NOTHING, rest);
      assert fills == rest + [f];
      RecordedWithin(rest, a, f);
      if rest == [] {
        assert (f.price + 1) * f.quantity == f.price * f.quantity + f.quantity;
      } else {
        RecordedValue(a, Value(rest), n, f.price, f.quantity);
      }
    }
  }

  /** Recording is one after another, so orders can be recorded one by one. */
  lemma {:induction false} RecordAllAppend(a: Average, x: seq<Fill>, y: seq<Fill>)
    requires Trades(x) && Trades(y)
    ensures Trades(x + y) && RecordAll(a, x + y) == RecordAll(RecordAll(a, x), y)
    decreases |y|
  {
    hide Record;
    if y == [] {
      assert x + y == x;
    } else {
      var n := |y| - 1;
      RecordAllAppend(a, x, y[..n]);
      assert (x + y)[..|x + y| - 1] == x + y[..n];
    }
  }

  /** The update of the average, trade by trade. */
  method RecordTrades(a: Average, fills: seq<Fill>) returns (r: Average)
    requires Trades(fills)
    ensures r == RecordAll(a, fills)
  {
    r := a;
    assert fills[..0] == [];
    for i := 0 to |fills|
      invariant r == RecordAll(a, fills[..i])
    {
      var price, quantity := fills[i].price, fills[i].quantity;
      assert fills[..i + 1][..i] == fills[..i];
      if r.price == 0 || r.quantity == 0 {
        r := Average(price, quantity);
      } else {
        var total := r.quantity + quantity;
        NonNegative(r.price * r.quantity + price * quantity, total);
        r := Average((r.price * r.quantity + price * quantity) / total, total);
      }
    }
    assert fills[..|fills|] == fills;
  }

  // ----- epoch after epoch

  /** The price kept after epochs of trades in one pair. */
  function Kept(epochs: seq<seq<Fill>>): nat
    requires forall e | 0 <= e < |epochs| :: Trades(epochs[e])
    decreases |epochs|
  {
    if epochs == [] then 0
    else
      var n := |epochs| - 1;
      if RecordAll(NOTHING, epochs[n]).price > 0 then RecordAll(NOTHING, epochs[n]).price else Kept(epochs[..n])
  }

  /** The kept price is the average of the last epoch that saw a trade, and zero only without any trade. */
  lemma {:induction false} KeptIsLast(epochs: seq<seq<Fill>>) returns (e: nat)
    requires forall e | 0 <= e < |epochs| :: Trades(epochs[e])
    ensures (forall i | 0 <= i < |epochs| :: epochs[i] == []) ==> Kept(epochs) == 0
    ensures (exists i :: 0 <= i < |epochs| && epochs[i] != []) ==>
      && e < |epochs| && epochs[e] != [] && (forall i | e < i < |epochs| :: epochs[i] == [])
      && Kept(epochs) == RecordAll(NOTHING, epochs[e]).price && Within(epochs[e], Kept(epochs))
    decreases |epochs|
  {
    e := 0;
    if epochs != [] {
      var n := |epochs| - 1;
      var earlier := epochs[..n];
      AverageOfEpoch(epochs[n]);
      hide Within, RecordAll;
      if epochs[n] == [] {
        e := KeptIsLast(earlier);
        assert forall i | 0 <= i < n :: earlier[i] == epochs[i];
      } else {
        e := n;
      }
    }
  }
}
