/** The static game data: resources, machine types and recipes, each table
    keyed by id and kept in the order the data lists them. A key the data
    omits (`cost`, `inputs`, `outputs`, `machines`) is an empty list here. */
module GameData {
  import opened Dicts

  /** An entry of the resources table; `unit` may be absent. */
  datatype ResourceInfo = ResourceInfo(name: string, unit: Option<string>, startingAmount: real)

  /** An entry of the machines table. */
  datatype MachineType = MachineType(name: string, cost: Rates, startingCount: int)

  /** An entry of the recipes table: the machine types allowed to run it and
      its per-second input and output rates. */
  datatype Recipe = Recipe(machines: seq<string>, inputs: Rates, outputs: Rates)

  /** An entry of the harvest table, reduced to what harvesting reads: the
      resource (empty when the data omits it) and the amount (0 when
      omitted). */
  datatype Harvest = Harvest(resource: string, amount: real)

  datatype Catalog = Catalog(
    resources: Dict<ResourceInfo>,
    machineTypes: Dict<MachineType>,
    recipes: Dict<Recipe>)

  predicate RecipeWellFormed(rec: Recipe) {
    DistinctKeys(rec.inputs) && DistinctKeys(rec.outputs)
  }

  /** Every table and every nested rate table came from a JSON object, so no
      key occurs twice in any of them. */
  predicate WellFormed(c: Catalog) {
    && DistinctKeys(c.resources)
    && DistinctKeys(c.machineTypes)
    && DistinctKeys(c.recipes)
    && (forall i :: 0 <= i < |c.machineTypes| ==> DistinctKeys(c.machineTypes[i].1.cost))
    && (forall i :: 0 <= i < |c.recipes| ==> RecipeWellFormed(c.recipes[i].1))
  }

  /** No recipe produces a negative amount of anything. */
  predicate OutputsNonNegative(recipes: Dict<Recipe>) {
    forall i, j :: 0 <= i < |recipes| && 0 <= j < |recipes[i].1.outputs| ==> recipes[i].1.outputs[j].1 >= 0.0
  }

  lemma CostOfWellFormed(c: Catalog, name: string, t: MachineType)
    requires WellFormed(c) && Lookup(c.machineTypes, name) == Some(t)
    ensures DistinctKeys(t.cost)
  {
  }
}
