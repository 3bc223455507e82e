/** Built machines: which recipes a machine type may run, and the runtime
    machine object (main.py:18-32). */
module Machines {
  import opened Dicts
  import opened GameData

  /** The recipes whose machine list names `machineId`, in catalog order
      (the comprehension at main.py:22-25). */
  function Eligible(recipes: Dict<Recipe>, machineId: string): (names: seq<string>)
    ensures |names| <= |recipes|
    decreases |recipes|
  {
    if recipes == [] then []
    else
      (if machineId in recipes[0].1.machines then [recipes[0].0] else [])
      + Eligible(recipes[1..], machineId)
  }

  /** A recipe name is eligible exactly when some catalog entry of that name
      lists the machine type; in particular a recipe with an empty machine
      list is eligible for no machine. */
  lemma {:induction false} EligibleIff(recipes: Dict<Recipe>, machineId: string, k: string)
    ensures k in Eligible(recipes, machineId)
        <==> exists i :: 0 <= i < |recipes| && recipes[i].0 == k && machineId in recipes[i].1.machines
    decreases |recipes|
  {
    if recipes != [] {
      var tail := recipes[1..];
      EligibleIff(tail, machineId, k);
      if exists i :: 0 <= i < |recipes| && recipes[i].0 == k && machineId in recipes[i].1.machines {
        var i :| 0 <= i < |recipes| && recipes[i].0 == k && machineId in recipes[i].1.machines;
        if i > 0 {
          assert tail[i - 1] == recipes[i];
        }
      }
      if exists i :: 0 <= i < |tail| && tail[i].0 == k && machineId in tail[i].1.machines {
        var i :| 0 <= i < |tail| && tail[i].0 == k && machineId in tail[i].1.machines;
        assert recipes[i + 1] == tail[i];
      }
    }
  }

  /** The default recipe is the first catalog entry that lists the machine
      type: `j` is the least such index. */
  lemma {:induction false} EligibleHead(recipes: Dict<Recipe>, machineId: string, j: nat)
    requires j < |recipes| && machineId in recipes[j].1.machines
    requires forall i :: 0 <= i < j ==> machineId !in recipes[i].1.machines
    ensures Eligible(recipes, machineId) != []
    ensures Eligible(recipes, machineId)[0] == recipes[j].0
    decreases j
  {
    if j > 0 {
      var tail := recipes[1..];
      forall i | 0 <= i < j - 1
        ensures machineId !in tail[i].1.machines
      {
        assert tail[i] == recipes[i + 1];
      }
      EligibleHead(tail, machineId, j - 1);
    }
  }

  /** Catalog entries named `x` and `y`, in that order, both list the type. */
  predicate ListedInOrder(recipes: Dict<Recipe>, machineId: string, x: string, y: string) {
    exists i, j :: 0 <= i < j < |recipes| && recipes[i].0 == x && recipes[j].0 == y
                   && machineId in recipes[i].1.machines && machineId in recipes[j].1.machines
  }

  /** The eligible names keep catalog order: the names at any two positions
      `a < b` of the list name two catalog entries listing the type, in
      catalog order. */
  lemma {:induction false} EligibleInOrder(recipes: Dict<Recipe>, machineId: string, a: nat, b: nat)
    requires a < b < |Eligible(recipes, machineId)|
    ensures ListedInOrder(recipes, machineId, Eligible(recipes, machineId)[a], Eligible(recipes, machineId)[b])
    decreases |recipes|
  {
    var e := Eligible(recipes, machineId);
    var shift := if machineId in recipes[0].1.machines then 1 else 0;
    EligibleTail(recipes, machineId);
    if shift == 1 && a == 0 {
      ListedFirst(recipes, machineId, e[b]);
    } else {
      EligibleInOrder(recipes[1..], machineId, a - shift, b - shift);
      ListedShift(recipes, machineId, e[a], e[b]);
    }
  }

  /** Every eligible name is the name of a catalog recipe. */
  lemma EligibleListed(recipes: Dict<Recipe>, machineId: string)
    ensures var e := Eligible(recipes, machineId);
      forall k :: 0 <= k < |e| ==> HasKey(recipes, e[k])
  {
    var e := Eligible(recipes, machineId);
    forall k | 0 <= k < |e|
      ensures HasKey(recipes, e[k])
    {
      EligibleIff(recipes, machineId, e[k]);
    }
  }

  /** The eligible list is the first entry's name, when that entry lists
      the type, followed by the eligible names of the later entries. */
  lemma EligibleTail(recipes: Dict<Recipe>, machineId: string)
    requires recipes != []
    ensures var shift := if machineId in recipes[0].1.machines then 1 else 0;
      var e, t := Eligible(recipes, machineId), Eligible(recipes[1..], machineId);
      && |e| == shift + |t|
      && (shift == 1 ==> e[0] == recipes[0].0)
      && forall k :: shift <= k < |e| ==> e[k] == t[k - shift]
  {
    var head: seq<string> := if machineId in recipes[0].1.machines then [recipes[0].0] else [];
    assert Eligible(recipes, machineId) == head + Eligible(recipes[1..], machineId);
  }

  /** The first catalog entry, when it lists the type, comes before every
      eligible name of the entries after it. */
  lemma ListedFirst(recipes: Dict<Recipe>, machineId: string, y: string)
    requires recipes != [] && machineId in recipes[0].1.machines
    requires y in Eligible(recipes[1..], machineId)
    ensures ListedInOrder(recipes, machineId, recipes[0].0, y)
  {
    var tail := recipes[1..];
    EligibleIff(tail, machineId, y);
    var j :| 0 <= j < |tail| && tail[j].0 == y && machineId in tail[j].1.machines;
    assert recipes[j + 1] == tail[j];
  }

  /** Two entries in order among the later entries are in order in the
      whole catalog. */
  lemma ListedShift(recipes: Dict<Recipe>, machineId: string, x: string, y: string)
    requires recipes != [] && ListedInOrder(recipes[1..], machineId, x, y)
    ensures ListedInOrder(recipes, machineId, x, y)
  {
    var tail := recipes[1..];
    var i, j :| 0 <= i < j < |tail| && tail[i].0 == x && tail[j].0 == y
                && machineId in tail[i].1.machines && machineId in tail[j].1.machines;
    assert recipes[i + 1] == tail[i] && recipes[j + 1] == tail[j];
  }

  /** In a catalog without repeated names, no recipe is listed twice. */
  lemma EligibleDistinct(recipes: Dict<Recipe>, machineId: string)
    requires DistinctKeys(recipes)
    ensures var e := Eligible(recipes, machineId);
      forall a, b :: 0 <= a < b < |e| ==> e[a] != e[b]
  {
    var e := Eligible(recipes, machineId);
    forall a, b | 0 <= a < b < |e|
      ensures e[a] != e[b]
    {
      EligibleInOrder(recipes, machineId, a, b);
    }
  }


  /** A machine type that no recipe lists gets no recipes at all. */
  lemma {:induction false} EligibleEmpty(recipes: Dict<Recipe>, machineId: string)
    ensures Eligible(recipes, machineId) == []
        <==> forall i :: 0 <= i < |recipes| ==> machineId !in recipes[i].1.machines
    decreases |recipes|
  {
    if recipes != [] {
      var tail := recipes[1..];
      EligibleEmpty(tail, machineId);
      assert forall i :: 0 <= i < |tail| ==> tail[i] == recipes[i + 1];
      if forall i :: 0 <= i < |tail| ==> machineId !in tail[i].1.machines {
        forall i | 0 <= i < |recipes|
          ensures machineId !in recipes[i].1.machines || i == 0
        {
          if i > 0 { assert recipes[i] == tail[i - 1]; }
        }
      }
    }
  }

  function FirstOf(names: seq<string>): (r: Option<string>)
    ensures r.None? <==> names == []
    ensures r.Some? ==> r.value == names[0]
  {
    if names == [] then None else Some(names[0])
  }

  /** What one machine is at a moment: its type, its on/off flag, its eligible
      recipes and the recipe it runs, if any. */
  datatype MachineState = MachineState(id: string, active: bool, recipes: seq<string>, current: Option<string>)

  /** A newly constructed machine of type `machineId` (main.py:19-26). */
  function Initial(recipes: Dict<Recipe>, machineId: string): (m: MachineState)
    ensures m.id == machineId && !m.active
    ensures m.current.Some? <==> m.recipes != []
    ensures m.current.Some? ==> m.current.value in m.recipes
  {
    var names := Eligible(recipes, machineId);
    MachineState(machineId, false, names, FirstOf(names))
  }

  /** The recipe a machine runs always belongs to its eligible list, and a
      machine has a recipe exactly when that list is non-empty. */
  predicate Consistent(m: MachineState) {
    && (m.current.Some? <==> m.recipes != [])
    && (m.current.Some? ==> m.current.value in m.recipes)
  }

  class Machine {
    const id: string
    var active: bool
    const recipes: seq<string>
    var currentRecipe: Option<string>

    function State(): MachineState
      reads this
    {
      MachineState(id, active, recipes, currentRecipe)
    }

    constructor (machineId: string, recipes: Dict<Recipe>)
      ensures State() == Initial(recipes, machineId)
      ensures Consistent(State())
    {
      id := machineId;
      active := false;
      var names := Eligible(recipes, machineId);
      this.recipes := names;
      currentRecipe := if names != [] then Some(names[0]) else None;
    }

    /** Turns the machine on or off (main.py:28-29). */
    method ToggleActive()
      modifies this
      ensures active == !old(active)
      ensures currentRecipe == old(currentRecipe)
    {
      active := !active;
    }

    /** Runs the `index`-th eligible recipe (main.py:31-32); the list is
        indexed without a bounds check, so the caller must stay in range. */
    method SetRecipe(index: nat)
      requires index < |recipes|
      modifies this
      ensures currentRecipe == Some(recipes[index])
      ensures active == old(active)
      ensures Consistent(State())
    {
      currentRecipe := Some(recipes[index]);
    }
  }

  /** Toggling twice restores the flag and touches nothing else. */
  method ToggleTwice(m: Machine)
    modifies m
    ensures m.State() == old(m.State())
  {
    m.ToggleActive();
    m.ToggleActive();
  }
}
