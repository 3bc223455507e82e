/** The running game: the resource ledger and the list of built machines,
    and the operations the player and the update loop apply to them
    (main.py:34-47, 63-139, 187-248). */
module Game {
  import opened Dicts
  import opened GameData
  import opened Machines
  import opened Engine
  import opened Builder
  import opened Formatter

  /** The ledger as set up at main.py:37-39: every listed resource at its
      starting amount, one entry after another. */
  function InitialStock(resources: Dict<ResourceInfo>): (s: Stock)
    ensures forall x :: x in s <==> HasKey(resources, x)
    decreases |resources|
  {
    if resources == [] then map[]
    else
      var n := |resources|;
      var p := resources[..n - 1];
      assert forall i :: 0 <= i < n - 1 ==> p[i] == resources[i];
      InitialStock(p)[resources[n - 1].0 := resources[n - 1].1.startingAmount]
  }

  /** Each listed resource starts at its own starting amount (the last one
      listed, should a name repeat). */
  lemma {:induction false} InitialStockAt(resources: Dict<ResourceInfo>, x: string)
    requires HasKey(resources, x)
    ensures InitialStock(resources)[x] == Lookup(resources, x).value.startingAmount
    decreases |resources|
  {
    var n := |resources|;
    if resources[n - 1].0 != x {
      var p := resources[..n - 1];
      var i :| 0 <= i < n && resources[i].0 == x;
      assert p[i] == resources[i];
      InitialStockAt(p, x);
      assert Lookup(resources, x) == Lookup(p, x);
      assert InitialStock(resources)[x] == InitialStock(p)[x];
    }
  }

  /** `count` copies of one machine state; none when `count` is not
      positive, as `range(count)` gives. */
  function Copies(m: MachineState, count: int): (ms: seq<MachineState>)
    ensures |ms| == if count > 0 then count else 0
    ensures forall i :: 0 <= i < |ms| ==> ms[i] == m
    decreases count
  {
    if count <= 0 then [] else Copies(m, count - 1) + [m]
  }

  /** The starting machines of main.py:44-47: for each machine type in
      catalog order, its starting count of new machines of that type. */
  function InitialMachines(types: Dict<MachineType>, recipes: Dict<Recipe>): (ms: seq<MachineState>)
    ensures |ms| == StartingTotal(types)
    decreases |types|
  {
    if types == [] then []
    else
      var n := |types|;
      InitialMachines(types[..n - 1], recipes)
        + Copies(Initial(recipes, types[n - 1].0), types[n - 1].1.startingCount)
  }

  /** The number of starting machines: the positive starting counts summed. */
  function StartingTotal(types: Dict<MachineType>): (total: nat)
    decreases |types|
  {
    if types == [] then 0
    else
      var n := |types|;
      var count := types[n - 1].1.startingCount;
      StartingTotal(types[..n - 1]) + (if count > 0 then count else 0)
  }

  /** Each starting machine is a new, inactive machine of a listed type with a positive
      starting count, holding that type's eligible recipes. */
  lemma {:induction false} InitialMachinesShape(types: Dict<MachineType>, recipes: Dict<Recipe>)
    ensures forall k :: 0 <= k < |InitialMachines(types, recipes)| ==>
      exists i :: 0 <= i < |types| && types[i].1.startingCount > 0
        && InitialMachines(types, recipes)[k] == Initial(recipes, types[i].0)
    decreases |types|
  {
    if types != [] {
      var n := |types|;
      var p := types[..n - 1];
      InitialMachinesShape(p, recipes);
      var before := InitialMachines(p, recipes);
      var ms := InitialMachines(types, recipes);
      assert ms == before + Copies(Initial(recipes, types[n - 1].0), types[n - 1].1.startingCount);
      forall k | 0 <= k < |ms|
        ensures exists i :: 0 <= i < |types| && types[i].1.startingCount > 0 && ms[k] == Initial(recipes, types[i].0)
      {
        if k < |before| {
          var i :| 0 <= i < |p| && p[i].1.startingCount > 0 && before[k] == Initial(recipes, p[i].0);
          assert types[i] == p[i];
        } else {
          var copies := Copies(Initial(recipes, types[n - 1].0), types[n - 1].1.startingCount);
          assert |copies| > 0 && ms[k] == copies[k - |before|];
        }
      }
    } else {
      assert InitialMachines(types, recipes) == [];
    }
  }

  /** Machine type `i` contributes its own block of starting machines, its
      starting count of new machines of that type, right after the blocks of
      the types listed before it. */
  lemma {:induction false} InitialMachinesBlock(types: Dict<MachineType>, recipes: Dict<Recipe>, i: nat)
    requires i < |types|
    ensures var ms := InitialMachines(types, recipes);
      var lo, hi := StartingTotal(types[..i]), StartingTotal(types[..i + 1]);
      && lo <= hi <= |ms|
      && ms[lo..hi] == Copies(Initial(recipes, types[i].0), types[i].1.startingCount)
    decreases |types|
  {
    var n := |types|;
    var p := types[..n - 1];
    var ms := InitialMachines(types, recipes);
    assert ms == InitialMachines(p, recipes) + Copies(Initial(recipes, types[n - 1].0), types[n - 1].1.startingCount);
    if i == n - 1 {
      assert types[..i] == p && types[..i + 1] == types;
    } else {
      assert p[..i] == types[..i] && p[..i + 1] == types[..i + 1] && p[i] == types[i];
      InitialMachinesBlock(p, recipes, i);
    }
  }

  /** The machine states of a list of machines, in list order. */
  function StatesOf(ms: seq<Machine>): (ss: seq<MachineState>)
    reads ms
    ensures |ss| == |ms|
    ensures forall i :: 0 <= i < |ms| ==> ss[i] == ms[i].State()
    decreases |ms|
  {
    if ms == [] then [] else StatesOf(ms[..|ms| - 1]) + [ms[|ms| - 1].State()]
  }

  /** The ledger after a harvest (main.py:200-207): an entry without a
      resource does nothing; otherwise the amount is added, unclamped, to
      that one resource. */
  function Harvested(stock: Stock, h: Harvest): (after: Stock)
    requires h.resource == "" || h.resource in stock
    ensures forall x :: x in after <==> x in stock
    ensures forall x :: x in stock ==>
      after[x] == stock[x] + (if x == h.resource && x != "" then h.amount else 0.0)
  {
    if h.resource == "" then stock
    else stock[h.resource := stock[h.resource] + h.amount]
  }

  /** A harvest of a non-negative amount keeps the ledger non-negative. */
  lemma HarvestKeepsNonNegative(stock: Stock, h: Harvest)
    requires NonNegative(stock) && h.amount >= 0.0
    requires h.resource == "" || h.resource in stock
    ensures NonNegative(Harvested(stock, h))
  {
    var after := Harvested(stock, h);
    forall x | x in after
      ensures after[x] >= 0.0
    {
      assert x in stock;
    }
  }

  /** The loop of main.py:37-39 filling the ledger. */
  method StartingStock(resources: Dict<ResourceInfo>) returns (s: Stock)
    ensures s == InitialStock(resources)
  {
    s := map[];
    var j := 0;
    while j < |resources|
      invariant 0 <= j <= |resources|
      invariant s == InitialStock(resources[..j])
    {
      assert resources[..j + 1][..j] == resources[..j];
      s := s[resources[j].0 := resources[j].1.startingAmount];
      j := j + 1;
    }
    assert resources[..j] == resources;
  }

  /** No machine object occurs twice in the list. */
  ghost predicate Distinct(ms: seq<Machine>)
    decreases |ms|
  {
    ms == [] || (Distinct(ms[..|ms| - 1]) && ms[|ms| - 1] !in ms[..|ms| - 1])
  }

  lemma {:induction false} DistinctAt(ms: seq<Machine>, a: nat, b: nat)
    requires Distinct(ms) && a < b < |ms|
    ensures ms[a] != ms[b]
    decreases |ms|
  {
    var p := ms[..|ms| - 1];
    if b < |ms| - 1 {
      DistinctAt(p, a, b);
    } else {
      assert ms[a] == p[a];
    }
  }

  /** The machines a list holds are distinct objects, each holding its
      type's eligible recipes. */
  ghost predicate Sound(ms: seq<Machine>, recipes: Dict<Recipe>) {
    && Distinct(ms)
    && (forall a :: 0 <= a < |ms| ==> ms[a].recipes == Eligible(recipes, ms[a].id))
  }

  /** Every machine runs one of its eligible recipes, or none when it has
      none. */
  predicate AllConsistent(states: seq<MachineState>) {
    forall a :: 0 <= a < |states| ==> Consistent(states[a])
  }

  /** The starting machines run their first eligible recipe, or none. */
  lemma InitialConsistent(types: Dict<MachineType>, recipes: Dict<Recipe>)
    ensures AllConsistent(InitialMachines(types, recipes))
  {
    InitialMachinesShape(types, recipes);
  }

  /** The inner loop of main.py:46-47: appends `count` new machines of
      type `id` to `ms`. */
  method AppendMachines(ms0: seq<Machine>, id: string, count: int, recipes: Dict<Recipe>) returns (ms: seq<Machine>)
    requires Sound(ms0, recipes)
    ensures StatesOf(ms) == old(StatesOf(ms0)) + Copies(Initial(recipes, id), count)
    ensures Sound(ms, recipes)
  {
    ms := ms0;
    var k := 0;
    while k < count
      invariant 0 <= k && (k == 0 || k <= count)
      invariant |ms| == |ms0| + k && ms[..|ms0|] == ms0
      invariant forall a :: |ms0| <= a < |ms| ==> ms[a].State() == Initial(recipes, id)
      invariant Sound(ms, recipes)
    {
      var m := new Machine(id, recipes);
      AppendFresh(ms, m, recipes);
      ms := ms + [m];
      k := k + 1;
    }
    StatesAfterAppend(ms0, ms, Initial(recipes, id), count);
  }

  /** The pointwise description of a list of copies appended to `ms0`. */
  lemma StatesAfterAppend(ms0: seq<Machine>, ms: seq<Machine>, m: MachineState, count: int)
    requires |ms| == |ms0| + (if count > 0 then count else 0) && ms[..|ms0|] == ms0
    requires forall a :: |ms0| <= a < |ms| ==> ms[a].State() == m
    ensures StatesOf(ms) == StatesOf(ms0) + Copies(m, count)
  {
    var r := StatesOf(ms0) + Copies(m, count);
    forall a | 0 <= a < |ms|
      ensures StatesOf(ms)[a] == r[a]
    {
      if a < |ms0| {
        assert ms[a] == ms0[a];
      }
    }
  }

  /** The loop of main.py:44-47 over the machine types, in catalog order. */
  method StartingMachines(types: Dict<MachineType>, recipes: Dict<Recipe>) returns (ms: seq<Machine>)
    ensures StatesOf(ms) == InitialMachines(types, recipes)
    ensures Sound(ms, recipes)
  {
    ms := [];
    var j := 0;
    while j < |types|
      invariant 0 <= j <= |types|
      invariant StatesOf(ms) == InitialMachines(types[..j], recipes)
      invariant Sound(ms, recipes)
    {
      ms := AppendMachines(ms, types[j].0, types[j].1.startingCount, recipes);
      assert types[..j + 1][..j] == types[..j];
      j := j + 1;
    }
    assert types[..j] == types;
  }

  /** A machine not yet in a sound list, holding its type's eligible
      recipes, extends it soundly. */
  lemma AppendFresh(ms: seq<Machine>, m: Machine, recipes: Dict<Recipe>)
    requires Sound(ms, recipes) && m !in ms
    requires m.recipes == Eligible(recipes, m.id)
    ensures Sound(ms + [m], recipes)
  {
    assert (ms + [m])[..|ms|] == ms;
    assert (ms + [m])[|ms|] == m;
  }

  class World {
    const catalog: Catalog
    var stock: Stock
    var machines: seq<Machine>

    /** The catalog came from JSON, the machine list is sound and every
        machine runs an eligible recipe or none. */
    ghost predicate Valid()
      reads this`machines, machines
    {
      WellFormed(catalog) && Sound(machines, catalog.recipes) && AllConsistent(States())
    }

    function States(): seq<MachineState>
      reads this`machines, machines
    {
      StatesOf(machines)
    }

    /** The start of a game (main.py:34-47). */
    constructor (catalog: Catalog)
      requires WellFormed(catalog)
      ensures this.catalog == catalog
      ensures stock == InitialStock(catalog.resources)
      ensures States() == InitialMachines(catalog.machineTypes, catalog.recipes)
      ensures Valid()
    {
      this.catalog := catalog;
      stock := map[];
      machines := [];
      new;
      stock := StartingStock(catalog.resources);
      machines := StartingMachines(catalog.machineTypes, catalog.recipes);
      InitialConsistent(catalog.machineTypes, catalog.recipes);
    }

    /** `can_craft` (main.py:63-89) on the current ledger: the ratios of
        the positive-rate inputs are folded into their running minimum. */
    method CanCraft(name: string, dt: real) returns (ratio: real)
      requires dt > 0.0
      ensures ratio == CraftRatio(catalog.recipes, name, stock, dt)
    {
      var found := Lookup(catalog.recipes, name);
      if found.None? {
        return 0.0;
      }
      var inputs := found.value.inputs;
      if inputs == [] {
        return 1.0;
      }
      var least: Option<real> := None;
      var j := 0;
      while j < |inputs|
        invariant 0 <= j <= |inputs|
        invariant least == MinRatio(inputs[..j], stock, dt)
      {
        assert inputs[..j + 1][..j] == inputs[..j];
        var res := inputs[j].0;
        var amt := inputs[j].1;
        if amt > 0.0 {
          var q := InputRatio(Amount(stock, res), amt, dt);
          least := match least
            case None => Some(q)
            case Some(m) => Some(if q <= m then q else m);
        }
        j := j + 1;
      }
      assert inputs[..j] == inputs;
      if least.None? {
        return 1.0;
      }
      var m := least.value;
      if m <= 0.0 {
        return 0.0;
      }
      ratio := Max(0.0, if m <= 1.0 then m else 1.0);
    }

    /** One tick of production (main.py:92-112): machines in list order,
        each running at the ratio the ledger left by the machines before it
        allows. */
    method ProcessMachines(dt: real)
      requires dt > 0.0
      modifies this`stock
      ensures stock == Tick(catalog.recipes, old(stock), States(), dt)
      ensures NonNegative(old(stock)) && OutputsNonNegative(catalog.recipes) ==> NonNegative(stock)
      ensures machines == old(machines) && States() == old(States())
    {
      var states := States();
      var i := 0;
      while i < |machines|
        invariant 0 <= i <= |machines|
        invariant stock == Tick(catalog.recipes, old(stock), states[..i], dt)
      {
        assert states[..i + 1][..i] == states[..i];
        RunMachine(machines[i], dt);
        i := i + 1;
      }
      assert states[..i] == states;
      if NonNegative(old(stock)) && OutputsNonNegative(catalog.recipes) {
        TickNonNegative(catalog.recipes, old(stock), states, dt);
      }
    }

    /** One machine's turn (main.py:94-112): an idle machine, or one whose
        ratio is not positive, is skipped. */
    method RunMachine(m: Machine, dt: real)
      requires dt > 0.0
      modifies this`stock
      ensures stock == Step(catalog.recipes, old(stock), m.State(), dt)
    {
      if !m.active || m.currentRecipe.None? || m.currentRecipe.value == "" {
        return;
      }
      var ratio := CanCraft(m.currentRecipe.value, dt);
      if ratio <= 0.0 {
        return;
      }
      var rec := Lookup(catalog.recipes, m.currentRecipe.value).value;
      DeductInputs(rec.inputs, dt, ratio);
      AddOutputs(rec.outputs, dt, ratio);
    }

    /** The input loop of main.py:105-106: each input is deducted at its
        rate, scaled by `dt` and the ratio, and clamped at 0. */
    method DeductInputs(inputs: Rates, dt: real, ratio: real)
      modifies this`stock
      ensures stock == Consume(old(stock), inputs, dt, ratio)
    {
      var j := 0;
      while j < |inputs|
        invariant 0 <= j <= |inputs|
        invariant stock == Consume(old(stock), inputs[..j], dt, ratio)
      {
        assert inputs[..j + 1][..j] == inputs[..j];
        var res := inputs[j].0;
        stock := stock[res := Max(0.0, Amount(stock, res) - Demand(inputs[j].1, dt, ratio))];
        j := j + 1;
      }
      assert inputs[..j] == inputs;
    }

    /** The output loop of main.py:111-112: each output is added at its
        rate, scaled by `dt` and the ratio. */
    method AddOutputs(outputs: Rates, dt: real, ratio: real)
      modifies this`stock
      ensures stock == Produce(old(stock), outputs, dt, ratio)
    {
      var j := 0;
      while j < |outputs|
        invariant 0 <= j <= |outputs|
        invariant stock == Produce(old(stock), outputs[..j], dt, ratio)
      {
        assert outputs[..j + 1][..j] == outputs[..j];
        var res := outputs[j].0;
        stock := stock[res := Amount(stock, res) + Demand(outputs[j].1, dt, ratio)];
        j := j + 1;
      }
      assert outputs[..j] == outputs;
    }

    /** Turns machine `idx` on or off (main.py:115-117). */
    method ToggleMachineActive(idx: nat)
      requires Valid() && idx < |machines|
      modifies machines[idx]
      ensures Valid()
      ensures machines[idx].active == !old(machines[idx].active)
      ensures machines[idx].currentRecipe == old(machines[idx].currentRecipe)
      ensures forall j :: 0 <= j < |machines| && j != idx ==> machines[j].State() == old(machines[j].State())
    {
      Separate(idx);
      machines[idx].ToggleActive();
    }

    /** Every other machine of a valid world is another object. */
    lemma Separate(idx: nat)
      requires Valid() && idx < |machines|
      ensures forall j :: 0 <= j < |machines| && j != idx ==> machines[j] != machines[idx]
    {
      forall j | 0 <= j < |machines| && j != idx
        ensures machines[j] != machines[idx]
      {
        if j < idx { DistinctAt(machines, j, idx); } else { DistinctAt(machines, idx, j); }
      }
    }

    /** Selects a recipe for machine `idx` (main.py:119-121); a recipe the
        machine is not eligible for is ignored. */
    method ChangeMachineRecipe(idx: nat, selected: string)
      requires Valid() && idx < |machines|
      modifies machines[idx]
      ensures Valid()
      ensures selected in machines[idx].recipes ==> machines[idx].currentRecipe == Some(selected)
      ensures selected !in machines[idx].recipes ==> machines[idx].currentRecipe == old(machines[idx].currentRecipe)
      ensures machines[idx].active == old(machines[idx].active)
      ensures forall j :: 0 <= j < |machines| && j != idx ==> machines[j].State() == old(machines[j].State())
    {
      Separate(idx);
      var m := machines[idx];
      if selected in m.recipes {
        m.currentRecipe := Some(selected);
      }
    }

    /** `can_build` (main.py:187-197) on the current ledger. */
    method CanBuild(name: string) returns (ok: bool)
      ensures ok == Buildable(catalog.machineTypes, stock, name)
    {
      var found := Lookup(catalog.machineTypes, name);
      if found.None? {
        return false;
      }
      var cost := found.value.cost;
      var j := 0;
      while j < |cost|
        invariant 0 <= j <= |cost|
        invariant forall i :: 0 <= i < j ==> Amount(stock, cost[i].0) >= cost[i].1
      {
        if Amount(stock, cost[j].0) < cost[j].1 {
          return false;
        }
        j := j + 1;
      }
      return true;
    }

    /** Every resource the cost of machine type `key` names has a ledger
        entry; `resources[res] -= amt` fails on any other. */
    predicate CostStocked(key: string)
      reads this
    {
      match Lookup(catalog.machineTypes, key)
      case None => true
      case Some(t) => Stocked(t.cost, stock)
    }

    /** Builds a machine of type `key` (main.py:219-227): when affordable,
        the whole cost is paid and exactly one new machine is appended;
        otherwise nothing changes. */
    method BuildMachine(key: string)
      requires Valid()
      requires Buildable(catalog.machineTypes, stock, key) ==> CostStocked(key)
      modifies this
      ensures Valid()
      ensures old(Buildable(catalog.machineTypes, stock, key)) ==>
        && stock == Deduct(old(stock), Lookup(catalog.machineTypes, key).value.cost)
        && |machines| == old(|machines|) + 1
        && machines[..old(|machines|)] == old(machines)
        && fresh(machines[old(|machines|)])
        && machines[old(|machines|)].State() == Initial(catalog.recipes, key)
      ensures !old(Buildable(catalog.machineTypes, stock, key)) ==>
        stock == old(stock) && machines == old(machines)
      ensures NonNegative(old(stock)) ==> NonNegative(stock)
    {
      var ok := CanBuild(key);
      if ok {
        var t := Lookup(catalog.machineTypes, key).value;
        CostOfWellFormed(catalog, key, t);
        if NonNegative(stock) {
          BuildKeepsNonNegative(stock, t.cost);
        }
        PayCost(t.cost);
        AddMachine(key);
      }
    }

    /** `machines.append(Machine(key))` (main.py:227). */
    method AddMachine(key: string)
      requires Valid()
      modifies this`machines
      ensures Valid()
      ensures |machines| == old(|machines|) + 1
      ensures machines[..old(|machines|)] == old(machines)
      ensures fresh(machines[old(|machines|)])
      ensures machines[old(|machines|)].State() == Initial(catalog.recipes, key)
    {
      var m := new Machine(key, catalog.recipes);
      AppendFresh(machines, m, catalog.recipes);
      machines := machines + [m];
    }

    /** The deductions of main.py:224-225, one cost line after another. */
    method PayCost(cost: Rates)
      requires Stocked(cost, stock)
      modifies this`stock
      ensures stock == Deduct(old(stock), cost)
    {
      var j := 0;
      while j < |cost|
        invariant 0 <= j <= |cost|
        invariant stock == Deduct(old(stock), cost[..j])
      {
        assert cost[..j + 1][..j] == cost[..j];
        var res := cost[j].0;
        stock := stock[res := stock[res] - cost[j].1];
        j := j + 1;
      }
      assert cost[..j] == cost;
    }

    /** The "Build Miner" action (main.py:240-248): building a machine of
        type "miner". */
    method BuildMiner()
      requires Valid()
      requires Buildable(catalog.machineTypes, stock, "miner") ==> CostStocked("miner")
      modifies this
      ensures Valid()
      ensures old(Buildable(catalog.machineTypes, stock, "miner")) ==>
        && stock == Deduct(old(stock), Lookup(catalog.machineTypes, "miner").value.cost)
        && |machines| == old(|machines|) + 1
        && machines[..old(|machines|)] == old(machines)
        && fresh(machines[old(|machines|)])
        && machines[old(|machines|)].State() == Initial(catalog.recipes, "miner")
      ensures !old(Buildable(catalog.machineTypes, stock, "miner")) ==>
        stock == old(stock) && machines == old(machines)
      ensures NonNegative(old(stock)) ==> NonNegative(stock)
    {
      BuildMachine("miner");
    }

    /** Applies a harvest entry to the ledger (main.py:200-207). */
    method HarvestResource(h: Harvest)
      requires h.resource == "" || h.resource in stock
      modifies this`stock
      ensures stock == Harvested(old(stock), h)
    {
      if h.resource == "" {
        return;
      }
      stock := stock[h.resource := stock[h.resource] + h.amount];
    }

    /** The label of one resource (main.py:124-139): its stock, a missing
        one counting as 0, in its own unit or "u". Whatever it shows other
        than "negligible" reads back as the exact stock. */
    function FormatUnit(resource: string): (d: Display)
      reads this
      ensures d.Negligible? || Reading(d) == Some(Amount(stock, resource))
      ensures !d.Negligible? ==> d.unit == UnitOf(catalog.resources, resource)
    {
      var amount := Amount(stock, resource);
      var unit := UnitOf(catalog.resources, resource);
      FormatReadsBack(amount, unit);
      Format(amount, unit)
    }
  }
}
