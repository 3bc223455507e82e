/** Building machines: the affordability check (main.py:187-197) and the
    cost deduction of a build (main.py:219-227). */
module Builder {
  import opened Dicts
  import opened GameData

  /** Every cost line is covered by the stock, a missing resource counting
      as 0; the lines are checked in order and the first short one answers
      false (the loop of main.py:193-197). */
  function Affordable(cost: Rates, stock: Stock): (ok: bool)
    ensures ok <==> forall j :: 0 <= j < |cost| ==> Amount(stock, cost[j].0) >= cost[j].1
    decreases |cost|
  {
    if cost == [] then true
    else if Amount(stock, cost[0].0) < cost[0].1 then false
    else
      assert forall j :: 1 <= j < |cost| ==> cost[1..][j - 1] == cost[j];
      Affordable(cost[1..], stock)
  }

  /** `can_build` (main.py:187-197): an unknown machine type cannot be built. */
  predicate Buildable(types: Dict<MachineType>, stock: Stock, name: string)
    ensures Buildable(types, stock, name) ==> HasKey(types, name)
  {
    match Lookup(types, name)
    case None => false
    case Some(t) => Affordable(t.cost, stock)
  }

  /** Every resource a cost names has an entry in the stock. */
  predicate Stocked(cost: Rates, stock: Stock) {
    forall j :: 0 <= j < |cost| ==> cost[j].0 in stock
  }

  /** The deductions `resources[res] -= amt` of main.py:224-225, in order. */
  function Deduct(stock: Stock, cost: Rates): (after: Stock)
    requires Stocked(cost, stock)
    ensures forall x :: x in after <==> x in stock
    decreases |cost|
  {
    if cost == [] then stock
    else
      var n := |cost|;
      assert forall j :: 0 <= j < n - 1 ==> cost[..n - 1][j] == cost[j];
      var s := Deduct(stock, cost[..n - 1]);
      s[cost[n - 1].0 := s[cost[n - 1].0] - cost[n - 1].1]
  }

  /** The amount a cost charges for one resource: its cost line, or 0. */
  function Charge(cost: Rates, x: string): real {
    match Lookup(cost, x)
    case None => 0.0
    case Some(amt) => amt
  }

  /** With distinct cost lines, each resource loses exactly its own line's
      amount and the rest keep their stock. */
  lemma {:induction false} DeductAt(stock: Stock, cost: Rates, x: string)
    requires Stocked(cost, stock) && DistinctKeys(cost) && x in stock
    ensures Deduct(stock, cost)[x] == stock[x] - Charge(cost, x)
    decreases |cost|
  {
    if cost != [] {
      var p := cost[..|cost| - 1];
      assert forall j :: 0 <= j < |p| ==> p[j] == cost[j];
      LookupLast(cost, x);
      DeductAt(stock, p, x);
    }
  }

  /** Paying an affordable cost leaves no stock negative: each resource
      starts at no less than its line and loses exactly that line. */
  lemma BuildKeepsNonNegative(stock: Stock, cost: Rates)
    requires NonNegative(stock) && Stocked(cost, stock) && DistinctKeys(cost)
    requires Affordable(cost, stock)
    ensures NonNegative(Deduct(stock, cost))
  {
    forall x | x in Deduct(stock, cost)
      ensures Deduct(stock, cost)[x] >= 0.0
    {
      DeductAt(stock, cost, x);
      match Lookup(cost, x)
      case None =>
      case Some(amt) =>
        var j :| 0 <= j < |cost| && cost[j] == (x, amt);
    }
  }
}
