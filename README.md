# Factory idle game: the resource engine

A Dafny model of the simulation core of a small idle "factory" game
(`main.py`). The game keeps a ledger of resource stocks and a list of built
machines. Machines run recipes that turn input resources into output resources
at per-second rates. The player can harvest resources by hand, build machines
by paying their cost, switch machines on and off, and choose their recipes.
Each frame of the update loop runs every active machine for the elapsed time.

The static game data (resources, machine types, recipes, harvest actions) is
taken as immutable values. The JSON objects it comes from become ordered
association lists (`Dicts.Dict`), so their order is kept where the game depends
on it: the recipe order sets a machine's recipe list, and the machine-type order
sets the order of the starting machines.

Modules:

- `Dicts` (dicts.dfy) — ordered dictionaries, last-match lookup, and the ledger
  `map<string, real>`. A missing resource reads as 0.
- `GameData` (catalog.dfy) — catalog entries. `WellFormed` means no table
  repeats a key.
- `Machines` (machine.dfy) — eligible recipes, the machine-state value, and the
  `Machine` class with its in-place updates.
- `Engine` (engine.dfy) — the craft ratio (`can_craft`) and one production tick
  (`process_machines`) as functions of the ledger, with the lemmas about them.
- `Builder` (builder.dfy) — affordability (`can_build`) and the cost deduction
  of a build.
- `Formatter` (formatter.dfy) — the display tier of an amount (`format_unit`).
- `Game` (game.dfy) — the starting state and the `World` class, which holds the
  ledger and the machine list. Its methods carry out the game's operations in
  place. The crafting and build checks, the ledger updates (tick, paying a
  cost, harvest) and the starting state are proved equal to the functions that
  specify them. Toggling, changing a recipe and appending a built machine are
  specified field by field: what changes, and that nothing else does.

Stocks, rates and amounts are `real`, so there is no rounding.

## Model

| member | source | states |
|---|---|---|
| Dicts.Lookup | main.py:64-67 | a key is found exactly when the dictionary lists it, and the value found is one listed with it |
| Dicts.Amount | main.py:77 | reading a non-negative ledger never gives a negative amount, a missing resource reading as 0 |
| Machines.Eligible | main.py:22-25 | a machine type never has more eligible recipes than the catalog has recipes |
| Machines.EligibleListed | main.py:22-25 | every eligible name is the name of a catalog recipe |
| Machines.EligibleTail | main.py:22-25 | the eligible list is the first entry's name, when that entry lists the type, followed by the eligible names of the later entries |
| Machines.EligibleIff | main.py:22-25 | a recipe is eligible for a machine type exactly when some catalog entry of that name lists the type |
| Machines.EligibleHead | main.py:22-26 | the first eligible recipe is the earliest catalog entry listing the type |
| Machines.EligibleInOrder | main.py:22-25 | the eligible names keep catalog order: any two of them, in list order, name two catalog entries listing the type, in catalog order |
| Machines.EligibleDistinct | main.py:22-25 | in a catalog without repeated names, each eligible recipe appears once |
| Machines.EligibleEmpty | main.py:22-26 | a machine type gets no recipes exactly when no recipe lists it |
| Machines.Initial | main.py:19-26 | a new machine is inactive, has a current recipe exactly when its recipe list is non-empty, and that recipe is in the list |
| Machines.Machine.constructor | main.py:19-26 | a constructed machine is in the initial state of its type and runs an eligible recipe or none |
| Machines.Machine.ToggleActive | main.py:28-29 | the on/off flag flips and the current recipe stays |
| Machines.Machine.SetRecipe | main.py:31-32 | the machine runs the chosen eligible recipe, keeps its flag, and still runs an eligible recipe |
| Machines.ToggleTwice | main.py:28-29 | toggling twice restores the machine's whole state |
| Engine.InputRatio | main.py:77-79 | one input's share never exceeds 1 |
| Engine.InputRatioFull | main.py:77-79 | a share is 1 exactly when a whole tick's worth (`rate * dt`) is in stock |
| Engine.InputRatioSign | main.py:77-79 | a share is not positive exactly when the stock is not positive |
| Engine.InputRatioDrains | main.py:77-79 | a share below 1 times a tick's worth is exactly the stock |
| Engine.InputRatioCovers | main.py:77-79 | running at no more than a share never asks for more than the stock |
| Engine.MinRatio | main.py:73-84 | none exactly when no input has a positive rate; otherwise a lower bound of every positive-rate input's share that one of them attains |
| Engine.InputsRatio | main.py:70-89 | the ratio of a recipe's inputs lies in [0, 1] |
| Engine.CraftRatio | main.py:63-89 | the craft ratio lies in [0, 1], and an unknown recipe gets 0 |
| Engine.RatioBelowShares | main.py:73-89 | a positive ratio is at most every positive-rate input's share |
| Engine.RatioAttained | main.py:84-89 | a ratio strictly between 0 and 1 equals some positive-rate input's share |
| Engine.RatioFullShares | main.py:70-89 | the ratio is 1 exactly when every positive-rate input's share is 1 |
| Engine.SharesFull | main.py:74-79 | every positive-rate input's share is 1 exactly when each holds a tick's worth |
| Engine.RatioFull | main.py:70-89 | the ratio is 1 exactly when every positive-rate input holds `rate * dt`, which includes a recipe without inputs and one whose rates are all non-positive |
| Engine.RatioZero | main.py:73-88 | the ratio is 0 exactly when some positive-rate input has a stock of 0 or less |
| Engine.RatioAffordable | main.py:73-89 | a positive ratio never asks a positive-rate input for more than its stock |
| Engine.RatioTight | main.py:84-89 | a ratio strictly between 0 and 1 drains some limiting input exactly |
| Engine.ShareDrains | main.py:77-79 | a share below 1 that some input attains drains that input exactly |
| Engine.ConsumeAt | main.py:105-106 | after the input loop, each resource is its stock minus its input line's demand clamped at 0, and an unlisted resource keeps its entry or absence |
| Engine.ProduceAt | main.py:111-112 | after the output loop, each resource is its stock plus its output line's amount, and an unlisted resource keeps its entry or absence |
| Engine.Consume | main.py:105-106 | the input deductions never remove a ledger entry |
| Engine.Produce | main.py:111-112 | the output additions never remove a ledger entry |
| Engine.Step | main.py:94-112 | one machine's turn never removes a ledger entry |
| Engine.Tick | main.py:92-112 | a tick never removes a ledger entry |
| Engine.TickInTurn | main.py:93-112 | a tick of two machines is the second machine's turn on the ledger the first machine's turn leaves |
| Engine.FirstTurn | main.py:63-112 | a furnace needing 10 ore/s with 15 ore for one second runs at ratio 1 and leaves 5 ore and 1 ingot |
| Engine.SecondTurn | main.py:63-112 | the same furnace with 5 ore runs at ratio 0.5 and leaves 0 ore and 1.5 ingots |
| Engine.StepSkips | main.py:94-99 | an inactive machine, one without a (non-empty) recipe, or one with ratio 0 leaves the ledger untouched |
| Engine.StepEffect | main.py:101-112 | a running machine sets each resource to `max(0, s - in*dt*r) + out*dt*r` over its recipe's lines; other resources keep their entry or absence |
| Engine.ConsumeNonNegative | main.py:105-106 | clamped deductions keep a non-negative ledger non-negative |
| Engine.ProduceNonNegative | main.py:111-112 | additions at non-negative rates keep a non-negative ledger non-negative |
| Engine.TickNonNegative | main.py:92-112 | a tick keeps a non-negative ledger non-negative when no recipe has a negative output rate |
| Engine.TickIdle | main.py:93-95 | a tick in which no machine runs leaves the ledger unchanged |
| Engine.SequentialPriority | main.py:93-112 | each machine reads the ledger left by the machines before it: of two machines needing 10 ore/s with 15 ore for one second, the first runs at ratio 1 and leaves 5, and the second at 0.5 leaves 0 |
| Builder.Affordable | main.py:191-197 | a cost is affordable exactly when every cost line is covered by the stock, a missing resource counting as 0 |
| Builder.Buildable | main.py:187-197 | only a machine type the catalog lists can be buildable |
| Builder.Deduct | main.py:224-225 | paying a cost keeps exactly the ledger's keys |
| Builder.DeductAt | main.py:224-225 | with distinct cost lines, each resource loses exactly its own line's amount |
| Builder.BuildKeepsNonNegative | main.py:219-225 | paying an affordable cost keeps a non-negative ledger non-negative |
| Formatter.Factor | main.py:130-137 | every prefix stands for a positive factor |
| Formatter.Format | main.py:128-139 | "0.00" exactly for 0; "negligible" exactly for a non-zero amount below 0.0009 (negatives included); otherwise a scaled value in the resource's unit with prefix M, k, none or m |
| Formatter.FormatReadsBack | main.py:128-139 | every amount not shown as "negligible" reads back exactly: mantissa times the prefix's factor |
| Formatter.FormatPicksFittingPrefix | main.py:130-137 | the tier is the largest threshold reached, so the mantissa is at least 0.9 and below 900 under the top tier; M exactly from 900000, m exactly below 0.9 |
| Formatter.FormatExamples | main.py:131-137 | the sample labels of the source's comments: 1234567 g is 1.234567 Mg, 1234 g is 1.234 kg, 0.00123 g is 1.23 mg |
| Formatter.UnitOf | main.py:126 | an unknown resource is shown in "u" |
| Game.InitialStock | main.py:37-39 | the starting ledger has an entry for exactly the listed resources |
| Game.InitialStockAt | main.py:37-39 | each listed resource starts at its own starting amount |
| Game.Copies | main.py:46-47 | `range(count)` gives `count` copies, or none when `count` is not positive |
| Game.InitialMachines | main.py:44-47 | there are as many starting machines as the positive starting counts add up to |
| Game.InitialMachinesBlock | main.py:44-47 | each machine type contributes exactly its starting count (none if not positive) of new machines of that type, as one block placed after the blocks of the types listed before it |
| Game.InitialMachinesShape | main.py:44-47 | each starting machine is a new machine of a listed type with a positive starting count |
| Game.InitialConsistent | main.py:44-47 | every starting machine runs an eligible recipe, or none when it has none |
| Game.StatesOf | main.py:41-47 | the state list has one entry per machine, each that machine's state |
| Game.StartingStock | main.py:37-39 | the loop fills the ledger as `InitialStock` says |
| Game.AppendMachines | main.py:46-47 | the inner loop appends `count` new machines of one type and keeps the list's objects distinct |
| Game.StartingMachines | main.py:44-47 | the loop builds the machine list `InitialMachines` describes, in type order, out of distinct objects |
| Game.Harvested | main.py:200-207 | a harvest without a resource does nothing; otherwise it adds the amount, unclamped, to that one resource, and all keys stay the same |
| Game.HarvestKeepsNonNegative | main.py:200-207 | harvesting a non-negative amount keeps a non-negative ledger non-negative |
| Game.World.constructor | main.py:34-47 | the game starts with the starting ledger and the starting machines, all distinct and each running an eligible recipe or none |
| Game.World.CanCraft | main.py:63-89 | the loop with its running minimum returns the craft ratio `CraftRatio` |
| Game.World.ProcessMachines | main.py:92-112 | one tick changes the ledger as `Tick` says over the machines in list order; a non-negative ledger stays non-negative when no output rate is negative; the machine list and every machine's state are unchanged |
| Game.World.RunMachine | main.py:94-112 | one machine's turn changes the ledger as `Step` says |
| Game.World.DeductInputs | main.py:105-106 | the input loop performs `Consume` |
| Game.World.AddOutputs | main.py:111-112 | the output loop performs `Produce` |
| Game.World.ToggleMachineActive | main.py:115-116 | only the chosen machine's flag flips; its recipe and every other machine stay the same |
| Game.World.Separate | main.py:115-121 | two positions of the machine list hold different objects |
| Game.World.ChangeMachineRecipe | main.py:119-121 | an eligible selection becomes the machine's recipe and an ineligible one changes nothing; the flag and every other machine stay the same |
| Game.World.CanBuild | main.py:187-197 | the early-return loop answers `Buildable`: false for an unknown type, else whether the cost is affordable |
| Game.World.BuildMachine | main.py:219-227 | all or nothing: when buildable, the whole cost is deducted and exactly one new machine of the type is appended; otherwise ledger and machine list are unchanged; a non-negative ledger stays non-negative |
| Game.World.AddMachine | main.py:227 | exactly one fresh machine in its initial state is appended |
| Game.World.PayCost | main.py:224-225 | the deduction loop performs `Deduct` |
| Game.World.BuildMiner | main.py:240-248 | the same all-or-nothing build for the type "miner" |
| Game.World.HarvestResource | main.py:200-207 | the ledger becomes `Harvested` of the old ledger |
| Game.World.FormatUnit | main.py:124-139 | any label other than "negligible" reads back as the exact stock (0 for a missing resource), in the resource's unit or "u" |

## Left out

- The tkinter window: widgets, `refresh_machine_frames`, `update_resources`, the scroll region and the layout (main.py:141-184 and the window code after line 250). This is display code.
- `run_updates`, `time.time()` and the `root.after` loop (main.py:49-60). The elapsed time is the parameter `dt` of `ProcessMachines` and `CanCraft`.
- `load_json` and the JSON files (main.py:7-15). The catalog is a `GameData.Catalog` value, with every default the code reads (`"starting amount"` 0, a missing `cost`, `inputs`, `outputs` or `machines` as empty, a missing harvest `resource` as "" and `amount` as 0) already filled in.
- `perform_harvest`, `perform_build` and `quit_game` (main.py:211-237, 255-258). They read menu selections or tear down the window.
- The two-decimal rendering of `format_unit`. `Formatter.Display` holds the tier's prefix, the unscaled mantissa and the unit, not the rounded text.
- IEEE floating point. Amounts are exact reals.
- Ticks of zero or negative length. `CanCraft`, `ProcessMachines` and the engine functions require `dt > 0`.
  - With `dt == 0`, main.py:79 divides by `amt * time_delta`, so a running machine whose recipe has a positive-rate input raises `ZeroDivisionError` rather than leaving the ledger alone.
  - A negative `dt`, which a clock stepping backwards would give, is accepted by main.py. A recipe without positive-rate inputs then gets ratio 1, and line 112 adds the negative `amt * dt` to its outputs unclamped. A recipe with a positive-rate input whose stock is not negative gets a share of 0 or less, and is skipped. The model does not cover negative ticks.
- `can_craft` folds the ratios of main.py:73-84 into a running minimum instead of collecting a list and taking `min`. The result is the same.
- Negative indices. `Machine.set_recipe`, `toggle_machine_active` and `change_machine_recipe` accept Python's negative indices; the model takes a `nat` index within bounds, which is also what the unchecked `recipes[index]` (main.py:32) and `machines[idx]` need.
- Crashes on missing ledger keys.
  - `HarvestResource` requires the harvested resource to have a ledger entry, because main.py:207 uses `resources[res] +=`.
  - `BuildMachine` and `BuildMiner` require every cost line of a buildable type to have a ledger entry (`CostStocked`), because main.py:225 and main.py:246 use `resources[res] -=`.
  - A cost line for a missing resource with an amount of 0 or less passes `can_build` and then raises `KeyError` part-way through the deductions. The model excludes that state instead of reproducing the partial update.
- Game.World.ToggleMachineActive, Game.World.ChangeMachineRecipe: their "every other machine is unchanged" clauses rely on the machine list holding distinct objects. `Valid` records this, and it holds because every machine is created by `new` and appended once.
- `build_miner` is the body of `build_machine` with the key fixed to "miner", so `BuildMiner` calls `BuildMachine("miner")` instead of repeating its loops.
