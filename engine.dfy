/** The production engine: the craft ratio of a recipe (main.py:63-89) and
    the effect of one tick on the ledger (main.py:92-112), as functions of the
    stock and the machine states. */
module Engine {
  import opened Dicts
  import opened GameData
  import opened Machines

  /** What a recipe line moves over `dt` seconds at `ratio` of its nominal
      rate: `amt * time_delta * ratio` (main.py:106, 112). */
  function Demand(rate: real, dt: real, ratio: real): real {
    rate * dt * ratio
  }

  /** One input's share, `min(available / (rate * dt), 1.0)` (main.py:77-79). */
  function InputRatio(available: real, rate: real, dt: real): (q: real)
    requires rate > 0.0 && dt > 0.0
    ensures q <= 1.0
  {
    var q := available / (rate * dt);
    if q <= 1.0 then q else 1.0
  }

  /** An input's share is 1 exactly when a whole tick's worth is in stock. */
  lemma InputRatioFull(available: real, rate: real, dt: real, q: real)
    requires rate > 0.0 && dt > 0.0 && q == InputRatio(available, rate, dt)
    ensures q == 1.0 <==> available >= Demand(rate, dt, 1.0)
  {
    var need := rate * dt;
    assert need > 0.0 by { PositiveProduct(rate, dt); }
    SignOfQuotient(available, need);
  }

  /** An input's share is not positive exactly when its stock is not. */
  lemma InputRatioSign(available: real, rate: real, dt: real, q: real)
    requires rate > 0.0 && dt > 0.0 && q == InputRatio(available, rate, dt)
    ensures q <= 0.0 <==> available <= 0.0
  {
    var need := rate * dt;
    assert need > 0.0 by { PositiveProduct(rate, dt); }
    SignOfQuotient(available, need);
  }

  /** Below 1, an input's share is the fraction of a tick's worth in stock. */
  lemma InputRatioDrains(available: real, rate: real, dt: real, q: real)
    requires rate > 0.0 && dt > 0.0 && q == InputRatio(available, rate, dt) && q < 1.0
    ensures Demand(rate, dt, q) == available
  {
    var need := rate * dt;
    assert need > 0.0 by { PositiveProduct(rate, dt); }
    assert (available / need) * need == available;
  }

  /** Running at no more than an input's share never asks that input for
      more than its stock. */
  lemma InputRatioCovers(available: real, rate: real, dt: real, r: real)
    requires rate > 0.0 && dt > 0.0 && 0.0 <= r <= InputRatio(available, rate, dt)
    ensures Demand(rate, dt, r) <= available
  {
    var q := InputRatio(available, rate, dt);
    var need := rate * dt;
    assert need > 0.0 by { PositiveProduct(rate, dt); }
    MulMono(r, q, need);
    assert Demand(rate, dt, r) == r * need;
    if q < 1.0 {
      InputRatioDrains(available, rate, dt, q);
    } else {
      InputRatioFull(available, rate, dt, q);
    }
  }

  lemma PositiveProduct(a: real, b: real)
    requires a > 0.0 && b > 0.0
    ensures a * b > 0.0
  {
  }

  lemma SignOfQuotient(a: real, b: real)
    requires b > 0.0
    ensures a / b <= 1.0 <==> a <= b
    ensures a / b <= 0.0 <==> a <= 0.0
  {
    assert (a / b) * b == a;
  }

  lemma MulMono(x: real, y: real, c: real)
    requires x <= y && c > 0.0
    ensures x * c <= y * c
  {
  }

  /** The positive-rate inputs constrain; the rest are ignored (main.py:75-76). */
  predicate Constrains(input: (string, real)) {
    input.1 > 0.0
  }

  /** The least of the positive-rate inputs' ratios, or None when no input
      has a positive rate (the `ratios` list and its minimum, main.py:73-84),
      folded over the inputs in order. */
  function MinRatio(inputs: Rates, stock: Stock, dt: real): (m: Option<real>)
    requires dt > 0.0
    ensures m.None? <==> forall i :: 0 <= i < |inputs| ==> !Constrains(inputs[i])
    ensures m.Some? ==> forall i :: 0 <= i < |inputs| && Constrains(inputs[i]) ==>
              m.value <= InputRatio(Amount(stock, inputs[i].0), inputs[i].1, dt)
    ensures m.Some? ==>
              exists i :: 0 <= i < |inputs| && Constrains(inputs[i]) && m.value == InputRatio(Amount(stock, inputs[i].0), inputs[i].1, dt)
    decreases |inputs|
  {
    if inputs == [] then None
    else
      var n := |inputs|;
      var rest := MinRatio(inputs[..n - 1], stock, dt);
      assert forall i :: 0 <= i < n - 1 ==> inputs[..n - 1][i] == inputs[i];
      if !Constrains(inputs[n - 1]) then rest
      else
        var q := InputRatio(Amount(stock, inputs[n - 1].0), inputs[n - 1].1, dt);
        match rest
        case None => Some(q)
        case Some(m) => Some(if q <= m then q else m)
  }

  /** The ratio a recipe with these inputs gets (main.py:70-89): 1 when
      nothing constrains it, otherwise the least input ratio, 0 when that is
      not positive. */
  function InputsRatio(inputs: Rates, stock: Stock, dt: real): (r: real)
    requires dt > 0.0
    ensures 0.0 <= r <= 1.0
  {
    if inputs == [] then 1.0
    else
      match MinRatio(inputs, stock, dt)
      case None => 1.0
      case Some(m) =>
        if m <= 0.0 then 0.0
        else Max(0.0, if m <= 1.0 then m else 1.0)
  }

  /** The fraction of a recipe's nominal rates a machine may run at this
      tick (main.py:63-89); an unknown recipe cannot run. */
  function CraftRatio(recipes: Dict<Recipe>, name: string, stock: Stock, dt: real): (r: real)
    requires dt > 0.0
    ensures 0.0 <= r <= 1.0
    ensures !HasKey(recipes, name) ==> r == 0.0
  {
    match Lookup(recipes, name)
    case None => 0.0
    case Some(rec) => InputsRatio(rec.inputs, stock, dt)
  }

  /** A running ratio is at most every positive-rate input's share. */
  lemma RatioBelowShares(inputs: Rates, stock: Stock, dt: real, i: nat)
    requires dt > 0.0 && i < |inputs| && Constrains(inputs[i])
    requires InputsRatio(inputs, stock, dt) > 0.0
    ensures InputsRatio(inputs, stock, dt) <= InputRatio(Amount(stock, inputs[i].0), inputs[i].1, dt)
  {
    assert InputsRatio(inputs, stock, dt) == MinRatio(inputs, stock, dt).value;
  }

  /** A partial ratio equals the share of some positive-rate input. */
  lemma RatioAttained(inputs: Rates, stock: Stock, dt: real)
    requires dt > 0.0
    requires 0.0 < InputsRatio(inputs, stock, dt) < 1.0
    ensures exists k :: 0 <= k < |inputs| && Constrains(inputs[k]) &&
                        InputsRatio(inputs, stock, dt) == InputRatio(Amount(stock, inputs[k].0), inputs[k].1, dt)
  {
    assert InputsRatio(inputs, stock, dt) == MinRatio(inputs, stock, dt).value;
  }

  /** Full rate exactly when every positive-rate input's share is full. */
  lemma RatioFullShares(inputs: Rates, stock: Stock, dt: real)
    requires dt > 0.0
    ensures InputsRatio(inputs, stock, dt) == 1.0
        <==> forall i :: 0 <= i < |inputs| && Constrains(inputs[i]) ==> InputRatio(Amount(stock, inputs[i].0), inputs[i].1, dt) == 1.0
  {
    var mr := MinRatio(inputs, stock, dt);
    if mr.Some? {
      assert inputs != [];
      var m := mr.value;
      assert InputsRatio(inputs, stock, dt) == (if m <= 0.0 then 0.0 else m);
    }
  }

  /** Every positive-rate input's share is full exactly when each holds a
      whole tick's worth. */
  lemma SharesFull(inputs: Rates, stock: Stock, dt: real)
    requires dt > 0.0
    ensures (forall i :: 0 <= i < |inputs| && Constrains(inputs[i]) ==> InputRatio(Amount(stock, inputs[i].0), inputs[i].1, dt) == 1.0)
        <==> forall i :: 0 <= i < |inputs| && Constrains(inputs[i]) ==> Amount(stock, inputs[i].0) >= Demand(inputs[i].1, dt, 1.0)
  {
    forall i | 0 <= i < |inputs| && Constrains(inputs[i])
      ensures InputRatio(Amount(stock, inputs[i].0), inputs[i].1, dt) == 1.0 <==> Amount(stock, inputs[i].0) >= Demand(inputs[i].1, dt, 1.0)
    {
      InputRatioFull(Amount(stock, inputs[i].0), inputs[i].1, dt, InputRatio(Amount(stock, inputs[i].0), inputs[i].1, dt));
    }
  }

  /** Full rate exactly when every positive-rate input holds a whole tick's
      worth, `rate * dt`; in particular a recipe without inputs, or whose
      input rates are all zero or negative, always runs at full rate. */
  lemma RatioFull(inputs: Rates, stock: Stock, dt: real)
    requires dt > 0.0
    ensures InputsRatio(inputs, stock, dt) == 1.0
        <==> forall i :: 0 <= i < |inputs| && Constrains(inputs[i]) ==> Amount(stock, inputs[i].0) >= Demand(inputs[i].1, dt, 1.0)
  {
    RatioFullShares(inputs, stock, dt);
    SharesFull(inputs, stock, dt);
  }

  /** Ratio 0 exactly when some positive-rate input has nothing (or less
      than nothing) in stock. */
  lemma RatioZero(inputs: Rates, stock: Stock, dt: real)
    requires dt > 0.0
    ensures InputsRatio(inputs, stock, dt) == 0.0
        <==> exists i :: 0 <= i < |inputs| && Constrains(inputs[i]) && Amount(stock, inputs[i].0) <= 0.0
  {
    var mr := MinRatio(inputs, stock, dt);
    var r := InputsRatio(inputs, stock, dt);
    if mr.Some? {
      var m := mr.value;
      assert inputs != [];
      assert r == (if m <= 0.0 then 0.0 else m);
      if m <= 0.0 {
        var k :| 0 <= k < |inputs| && Constrains(inputs[k]) &&
                 m == InputRatio(Amount(stock, inputs[k].0), inputs[k].1, dt);
        InputRatioSign(Amount(stock, inputs[k].0), inputs[k].1, dt, m);
      } else {
        forall i | 0 <= i < |inputs| && Constrains(inputs[i])
          ensures Amount(stock, inputs[i].0) > 0.0
        {
          var q := InputRatio(Amount(stock, inputs[i].0), inputs[i].1, dt);
          assert m <= q;
          InputRatioSign(Amount(stock, inputs[i].0), inputs[i].1, dt, q);
        }
      }
    }
  }

  /** The ratio never asks a positive-rate input for more than its stock:
      `ratio * rate * dt <= available`, whenever the machine runs at all. */
  lemma RatioAffordable(inputs: Rates, stock: Stock, dt: real, i: nat)
    requires dt > 0.0 && i < |inputs| && Constrains(inputs[i])
    requires InputsRatio(inputs, stock, dt) > 0.0
    ensures Demand(inputs[i].1, dt, InputsRatio(inputs, stock, dt)) <= Amount(stock, inputs[i].0)
  {
    RatioBelowShares(inputs, stock, dt, i);
    InputRatioCovers(Amount(stock, inputs[i].0), inputs[i].1, dt, InputsRatio(inputs, stock, dt));
  }

  /** A partial ratio is set by a limiting input that it drains exactly. */
  lemma RatioTight(inputs: Rates, stock: Stock, dt: real)
    requires dt > 0.0
    requires 0.0 < InputsRatio(inputs, stock, dt) < 1.0
    ensures exists i :: 0 <= i < |inputs| && Constrains(inputs[i]) &&
                        Demand(inputs[i].1, dt, InputsRatio(inputs, stock, dt)) == Amount(stock, inputs[i].0)
  {
    RatioAttained(inputs, stock, dt);
    ShareDrains(inputs, stock, dt, InputsRatio(inputs, stock, dt));
  }

  lemma ShareDrains(inputs: Rates, stock: Stock, dt: real, m: real)
    requires dt > 0.0 && m < 1.0
    requires exists k :: 0 <= k < |inputs| && Constrains(inputs[k]) && m == InputRatio(Amount(stock, inputs[k].0), inputs[k].1, dt)
    ensures exists i :: 0 <= i < |inputs| && Constrains(inputs[i]) && Demand(inputs[i].1, dt, m) == Amount(stock, inputs[i].0)
  {
    var k :| 0 <= k < |inputs| && Constrains(inputs[k]) && m == InputRatio(Amount(stock, inputs[k].0), inputs[k].1, dt);
    InputRatioDrains(Amount(stock, inputs[k].0), inputs[k].1, dt, m);
  }

  /** A machine runs only when it is on and has a recipe whose name is not
      the empty string (the truthiness test of main.py:94). */
  predicate Runs(m: MachineState) {
    m.active && m.current.Some? && m.current.value != ""
  }

  /** The input deductions of main.py:105-106, one resource after another,
      each clamped at 0. */
  function Consume(stock: Stock, inputs: Rates, dt: real, ratio: real): (after: Stock)
    ensures forall x :: x in stock ==> x in after
    ensures forall i :: 0 <= i < |inputs| ==> inputs[i].0 in after
    decreases |inputs|
  {
    if inputs == [] then stock
    else
      assert forall i :: 0 <= i < |inputs| - 1 ==> inputs[..|inputs| - 1][i] == inputs[i];
      var s := Consume(stock, inputs[..|inputs| - 1], dt, ratio);
      var last := inputs[|inputs| - 1];
      s[last.0 := Deducted(Amount(s, last.0), Some(last.1), dt, ratio)]
  }

  /** The output additions of main.py:111-112, not clamped. */
  function Produce(stock: Stock, outputs: Rates, dt: real, ratio: real): (after: Stock)
    ensures forall x :: x in stock ==> x in after
    ensures forall i :: 0 <= i < |outputs| ==> outputs[i].0 in after
    decreases |outputs|
  {
    if outputs == [] then stock
    else
      assert forall i :: 0 <= i < |outputs| - 1 ==> outputs[..|outputs| - 1][i] == outputs[i];
      var s := Produce(stock, outputs[..|outputs| - 1], dt, ratio);
      var last := outputs[|outputs| - 1];
      s[last.0 := Added(Amount(s, last.0), Some(last.1), dt, ratio)]
  }

  /** One machine's turn in a tick (main.py:94-112). */
  function Step(recipes: Dict<Recipe>, stock: Stock, m: MachineState, dt: real): (after: Stock)
    requires dt > 0.0
    ensures forall x :: x in stock ==> x in after
  {
    if !Runs(m) then stock
    else
      var ratio := CraftRatio(recipes, m.current.value, stock, dt);
      if ratio <= 0.0 then stock
      else
        var rec := Lookup(recipes, m.current.value).value;
        Produce(Consume(stock, rec.inputs, dt, ratio), rec.outputs, dt, ratio)
  }

  /** A whole tick: machines take their turns in list order, each reading
      the stock as left by the machines before it (main.py:93). */
  function Tick(recipes: Dict<Recipe>, stock: Stock, machines: seq<MachineState>, dt: real): (after: Stock)
    requires dt > 0.0
    ensures forall x :: x in stock ==> x in after
    decreases |machines|
  {
    if machines == [] then stock
    else Step(recipes, Tick(recipes, stock, machines[..|machines| - 1], dt), machines[|machines| - 1], dt)
  }

  /** What a recipe's input side does to one resource's stock `a`: a listed
      input is deducted at its rate and clamped at 0. */
  function Deducted(a: real, input: Option<real>, dt: real, ratio: real): real {
    match input
    case None => a
    case Some(rate) => Max(0.0, a - Demand(rate, dt, ratio))
  }

  /** What a recipe's output side does to one resource's stock `a`. */
  function Added(a: real, output: Option<real>, dt: real, ratio: real): real {
    match output
    case None => a
    case Some(rate) => a + Demand(rate, dt, ratio)
  }

  /** Each listed input resource ends at `max(0, s - rate*dt*ratio)`;
      every other resource keeps its entry. */
  lemma {:induction false} ConsumeAt(stock: Stock, inputs: Rates, dt: real, ratio: real, x: string)
    requires DistinctKeys(inputs)
    ensures var c := Consume(stock, inputs, dt, ratio);
      && (x in c <==> x in stock || HasKey(inputs, x))
      && Amount(c, x) == Deducted(Amount(stock, x), Lookup(inputs, x), dt, ratio)
    decreases |inputs|
  {
    if inputs != [] {
      var p := inputs[..|inputs| - 1];
      LookupLast(inputs, x);
      ConsumeAt(stock, p, dt, ratio, x);
      if inputs[|inputs| - 1].0 == x {
        assert Lookup(p, x) == None;
      }
    }
  }

  /** Each listed output resource ends at `s + rate*dt*ratio`; every other
      resource keeps its entry. */
  lemma {:induction false} ProduceAt(stock: Stock, outputs: Rates, dt: real, ratio: real, x: string)
    requires DistinctKeys(outputs)
    ensures var c := Produce(stock, outputs, dt, ratio);
      && (x in c <==> x in stock || HasKey(outputs, x))
      && Amount(c, x) == Added(Amount(stock, x), Lookup(outputs, x), dt, ratio)
    decreases |outputs|
  {
    if outputs != [] {
      var p := outputs[..|outputs| - 1];
      LookupLast(outputs, x);
      ProduceAt(stock, p, dt, ratio, x);
      if outputs[|outputs| - 1].0 == x {
        assert Lookup(p, x) == None;
      }
    }
  }

  /** A machine that is off, has no recipe, or gets ratio 0 leaves the
      ledger untouched (main.py:94-99). */
  lemma StepSkips(recipes: Dict<Recipe>, stock: Stock, m: MachineState, dt: real)
    requires dt > 0.0
    requires !Runs(m) || CraftRatio(recipes, m.current.value, stock, dt) == 0.0
    ensures Step(recipes, stock, m, dt) == stock
  {
  }

  /** A running machine moves each resource as its recipe says, scaled by
      its ratio; a resource the recipe does not mention keeps its entry
      exactly (main.py:101-112). */
  lemma StepEffect(recipes: Dict<Recipe>, stock: Stock, m: MachineState, dt: real, rec: Recipe, x: string)
    requires dt > 0.0 && Runs(m)
    requires Lookup(recipes, m.current.value) == Some(rec) && RecipeWellFormed(rec)
    requires CraftRatio(recipes, m.current.value, stock, dt) > 0.0
    ensures var after := Step(recipes, stock, m, dt);
      var ratio := CraftRatio(recipes, m.current.value, stock, dt);
      && (x in after <==> x in stock || HasKey(rec.inputs, x) || HasKey(rec.outputs, x))
      && Amount(after, x) == Added(Deducted(Amount(stock, x), Lookup(rec.inputs, x), dt, ratio), Lookup(rec.outputs, x), dt, ratio)
  {
    var ratio := CraftRatio(recipes, m.current.value, stock, dt);
    var c := Consume(stock, rec.inputs, dt, ratio);
    assert Step(recipes, stock, m, dt) == Produce(c, rec.outputs, dt, ratio);
    ConsumeAt(stock, rec.inputs, dt, ratio, x);
    ProduceAt(c, rec.outputs, dt, ratio, x);
  }

  lemma {:induction false} ConsumeNonNegative(stock: Stock, inputs: Rates, dt: real, ratio: real)
    requires NonNegative(stock)
    ensures NonNegative(Consume(stock, inputs, dt, ratio))
    decreases |inputs|
  {
    if inputs != [] {
      ConsumeNonNegative(stock, inputs[..|inputs| - 1], dt, ratio);
    }
  }

  lemma {:induction false} ProduceNonNegative(stock: Stock, outputs: Rates, dt: real, ratio: real)
    requires NonNegative(stock) && dt > 0.0 && ratio >= 0.0
    requires forall j :: 0 <= j < |outputs| ==> outputs[j].1 >= 0.0
    ensures NonNegative(Produce(stock, outputs, dt, ratio))
    decreases |outputs|
  {
    if outputs != [] {
      var n := |outputs|;
      var p := outputs[..n - 1];
      assert forall j :: 0 <= j < n - 1 ==> p[j] == outputs[j];
      ProduceNonNegative(stock, p, dt, ratio);
      var rate := outputs[n - 1].1;
      assert rate * dt >= 0.0 by { MulMono(0.0, rate, dt); }
      assert Demand(rate, dt, ratio) >= 0.0 by {
        if ratio > 0.0 { MulMono(0.0, rate * dt, ratio); }
      }
    }
  }

  /** A tick keeps every stock non-negative when no recipe has a negative
      output rate: inputs are clamped at 0 and outputs only add. */
  lemma {:induction false} TickNonNegative(recipes: Dict<Recipe>, stock: Stock, machines: seq<MachineState>, dt: real)
    requires dt > 0.0 && NonNegative(stock) && OutputsNonNegative(recipes)
    ensures NonNegative(Tick(recipes, stock, machines, dt))
    decreases |machines|
  {
    if machines != [] {
      var before := Tick(recipes, stock, machines[..|machines| - 1], dt);
      TickNonNegative(recipes, stock, machines[..|machines| - 1], dt);
      var m := machines[|machines| - 1];
      if Runs(m) {
        var ratio := CraftRatio(recipes, m.current.value, before, dt);
        if ratio > 0.0 {
          var rec := Lookup(recipes, m.current.value).value;
          var i :| 0 <= i < |recipes| && recipes[i] == (m.current.value, rec);
          ConsumeNonNegative(before, rec.inputs, dt, ratio);
          ProduceNonNegative(Consume(before, rec.inputs, dt, ratio), rec.outputs, dt, ratio);
        }
      }
    }
  }

  /** A tick in which no machine runs leaves the ledger as it was. */
  lemma {:induction false} TickIdle(recipes: Dict<Recipe>, stock: Stock, machines: seq<MachineState>, dt: real)
    requires dt > 0.0
    requires forall i :: 0 <= i < |machines| ==> !Runs(machines[i])
    ensures Tick(recipes, stock, machines, dt) == stock
    decreases |machines|
  {
    if machines != [] {
      TickIdle(recipes, stock, machines[..|machines| - 1], dt);
    }
  }

  /** A tick of one or two machines is their turns in order, the second
      machine taking its turn on the ledger the first leaves. */
  lemma TickInTurn(recipes: Dict<Recipe>, stock: Stock, first: MachineState, second: MachineState, dt: real)
    requires dt > 0.0
    ensures Tick(recipes, stock, [first], dt) == Step(recipes, stock, first, dt)
    ensures Tick(recipes, stock, [first, second], dt) == Step(recipes, Step(recipes, stock, first, dt), second, dt)
  {
    assert [first][..0] == [] && [first, second][..1] == [first];
  }

  /** The recipe and machine of the priority example below: a furnace
      smelting 10 ore per second into 1 ingot per second. */
  function SmeltRecipes(): Dict<Recipe> {
    [("smelt", Recipe(["furnace"], [("ore", 10.0)], [("ingot", 1.0)]))]
  }

  function Furnace(): MachineState {
    MachineState("furnace", true, ["smelt"], Some("smelt"))
  }

  /** A furnace's turn with 15 ore in stock: full rate, 5 ore left. */
  lemma FirstTurn()
    ensures CraftRatio(SmeltRecipes(), "smelt", map["ore" := 15.0, "ingot" := 0.0], 1.0) == 1.0
    ensures Step(SmeltRecipes(), map["ore" := 15.0, "ingot" := 0.0], Furnace(), 1.0) == map["ore" := 5.0, "ingot" := 1.0]
  {
    var rec := Recipe(["furnace"], [("ore", 10.0)], [("ingot", 1.0)]);
    var start := map["ore" := 15.0, "ingot" := 0.0];
    assert Lookup(SmeltRecipes(), "smelt") == Some(rec);
    assert rec.inputs[..0] == [] && rec.outputs[..0] == [];
    assert MinRatio(rec.inputs, start, 1.0) == Some(1.0);
  }

  /** A furnace's turn with 5 ore in stock: half rate, no ore left. */
  lemma SecondTurn()
    ensures CraftRatio(SmeltRecipes(), "smelt", map["ore" := 5.0, "ingot" := 1.0], 1.0) == 0.5
    ensures Step(SmeltRecipes(), map["ore" := 5.0, "ingot" := 1.0], Furnace(), 1.0) == map["ore" := 0.0, "ingot" := 1.5]
  {
    var rec := Recipe(["furnace"], [("ore", 10.0)], [("ingot", 1.0)]);
    var mid := map["ore" := 5.0, "ingot" := 1.0];
    assert Lookup(SmeltRecipes(), "smelt") == Some(rec);
    assert rec.inputs[..0] == [] && rec.outputs[..0] == [];
    assert MinRatio(rec.inputs, mid, 1.0) == Some(0.5);
  }

  /** Machines take priority in list order: two furnaces share 15 ore over
      one second; the first runs at full rate and leaves 5, the second then
      runs at half rate and leaves none. */
  lemma {:induction false} SequentialPriority()
    ensures var start := map["ore" := 15.0, "ingot" := 0.0];
      var mid := Tick(SmeltRecipes(), start, [Furnace()], 1.0);
      && CraftRatio(SmeltRecipes(), "smelt", start, 1.0) == 1.0
      && mid == map["ore" := 5.0, "ingot" := 1.0]
      && CraftRatio(SmeltRecipes(), "smelt", mid, 1.0) == 0.5
      && Tick(SmeltRecipes(), start, [Furnace(), Furnace()], 1.0) == map["ore" := 0.0, "ingot" := 1.5]
  {
    FirstTurn();
    SecondTurn();
    TickInTurn(SmeltRecipes(), map["ore" := 15.0, "ingot" := 0.0], Furnace(), Furnace(), 1.0);
  }
}
