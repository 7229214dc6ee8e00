# Inventory LP formulation in Dafny

This project models the model-formulation pipeline of `InventoryModel` in
`minex.py`. The pipeline turns order records into a multi-period,
multi-location inventory linear program:

- group-by-sum aggregation of order quantities per (product, time, location);
- the three index lists: distinct products, periods and locations;
- one non-negative variable per (product, location, period);
- a holding-cost objective to minimise;
- the balance and capacity constraints of `define_constraints`.

Products, periods and locations share one generic key type `K`. That is what
lets the model state the demand lookup with the key order the code uses.
Quantities, costs and capacities are `real`.

The model follows the program's own structure:

- `Demand` is the aggregated table. `Aggregate` is proved against an
  independent per-group sum, `GroupTotal`.
- `Indices` derives the index lists by first-occurrence deduplication of the
  aggregated rows. The lists are proved sound, tight, duplicate-free and in
  first-seen order.
- `Formulation` holds the dense variable grid and the objective. It proves
  the |P|·|L|·|T| variable count and that every variable appears exactly once
  in the objective, with its location's holding cost. `Lp.Combine` models
  `lpSum`'s merging of terms.
- `Constraints` is a specification function that follows `define_constraints`
  loop by loop, with its properties.
- `Lp.LpProblem` is a class whose `+=` operations set the objective or append
  a constraint.
- `Inventory.InventoryModel` is a class holding the pipeline's fields. Its
  `DefineConstraints` is the three nested loops, proved against the
  specification function. `BuildModel` runs the steps in `build_model`'s order
  and ends in the state of the pure `Inventory.Formulate`.

The constraint generator is modelled as the code is written, in two respects.

- **Lookup key order.** The demand lookup uses the key (t, i, w) against a
  table keyed (product, time, location).
- **Capacity emission.** When the lookup fails, the `continue` also skips the
  capacity constraint. So a capacity constraint of (w, t) is appended once per
  product whose lookup succeeds, and never for a (w, t) where every lookup
  fails.

One would expect a capacity constraint for every (location, period),
appended once whatever the lookups find. The code does neither, and the model
follows the code.

Both behaviours are listed under Findings. The corrected definition, in module
`Corrected`, is proved to have the intended properties. The class keeps the
code's behaviour, so that the model stays a model of this program.

## Model

| member | source | states |
|---|---|---|
| Wrappers.Lookup | minex.py:73-79 | the demand lookup finds a value exactly when the key is in the table, and then it is the table's value; a missing key is the `KeyError` path |
| Demand.Aggregate | minex.py:23 | the aggregated table has exactly one key per distinct (product, time, location) among the records |
| Demand.AggregateIsGroupTotal | minex.py:23 | each entry equals the sum of the quantities of the records with that key; a key that no record has totals 0 |
| Indices.Unique | minex.py:33-38 | `unique()` has no duplicates and holds exactly the values of its input |
| Indices.UniqueKeepsFirstSeenOrder | minex.py:33-38 | the distinct values keep the order of their first occurrence |
| Indices.DeriveIndices | minex.py:33-38 | each index list is duplicate-free and holds exactly the values found at its level of some aggregated key (sound and tight) |
| Formulation.AllocateVariables | minex.py:51-55 | there is a variable for (i, w, t) exactly when i, w and t are in the product, location and period lists; it has lower bound 0 and no upper bound |
| Formulation.VariableCount | minex.py:51-55 | with duplicate-free index lists there are |P|·|L|·|T| variables |
| Formulation.HoldingCostTerms | minex.py:60-63 | the generator yields one term per grid point in (i, w, t) order, with coefficient the holding cost of the term's location |
| Formulation.ObjectiveVarsAreGrid | minex.py:60-63 | the summed objective mentions exactly the variables of the grid |
| Formulation.ObjectiveIsHoldingCost | minex.py:60-65 | the objective mentions every allocated variable exactly once, with the holding cost of its location, and nothing else |
| Formulation.CapacityVars | minex.py:80-81 | the capacity sum ranges over the variables of every product at (w, t), each once |
| Lp.Combine | minex.py:60 | `lpSum` yields an expression over exactly the variables of its terms |
| Lp.CombineDistinct | minex.py:60 | when no variable repeats, each variable's coefficient in the sum is its term's coefficient |
| Lp.LpProblem.constructor | minex.py:25-26 | a new problem has the given name and sense, no objective and no constraints |
| Lp.LpProblem.SetObjective | minex.py:65 | `+=` with an expression sets the objective and changes nothing else |
| Lp.LpProblem.AddConstraint | minex.py:75-81 | `+=` with a constraint appends it at the end and changes nothing else |
| Constraints.Emitted | minex.py:72-81 | one pass of the product loop body: nothing is appended exactly when the (t, i, w) lookup fails, the `continue` skipping the capacity constraint too; otherwise `var(i, w, t) == d` with the demand found, then the capacity constraint of (w, t) over every product's variable, bounded by w's capacity |
| Constraints.BuildConstraints | minex.py:70-81 | what one call of `define_constraints` appends, in location, period, product loop order; it is a run of (balance, capacity) pairs for the same (w, t) |
| Constraints.ProductRunPaired | minex.py:72-81 | the product loop appends whole (balance, capacity) pairs for the same (w, t) |
| Constraints.TimeRunPaired | minex.py:71-81 | so does the time loop |
| Constraints.LocationRunPaired | minex.py:70-81 | so does the location loop |
| Constraints.BalanceInProductRun | minex.py:72-79 | the product loop at (w, t) appends `var(i, w, t) == d` exactly for the products so far whose (t, i, w) key holds d |
| Constraints.BalanceInTimeRun | minex.py:71-79 | the same, over the periods so far at location w |
| Constraints.BalanceInLocationRun | minex.py:70-79 | the same, over the locations so far |
| Constraints.BalanceIff | minex.py:73-79 | `var(i, w, t) == d` is appended exactly when (i, w, t) is on the grid, the key (t, i, w) is in the table and d is its value; no constraint is appended when the key is absent |
| Constraints.CapacityInProductRun | minex.py:72-81 | the product loop at (w, t) appends (w, t)'s capacity constraint exactly when some product so far has its (t, i, w) lookup succeed |
| Constraints.CapacityInTimeRun | minex.py:71-81 | the same, over the periods so far at location w |
| Constraints.CapacityInLocationRun | minex.py:70-81 | the same, over the locations so far |
| Constraints.CapacityIff | minex.py:75-81 | a capacity constraint for (w, t) is appended exactly when some product's lookup at (w, t) succeeds; it bounds the sum over all products at (w, t) by w's capacity |
| Constraints.PairedShape | minex.py:75-81 | in a list of pairs, every capacity constraint directly follows a balance constraint for its (w, t), every balance constraint directly precedes one, and the two counts are equal |
| Constraints.CapacityFollowsBalance | minex.py:75-81 | the list `define_constraints` appends is a run of pairs: every capacity constraint directly follows a balance constraint for its (w, t), every balance constraint directly precedes one, and the two counts are equal |
| Constraints.Hits | minex.py:72-79 | the number of products whose (t, i, w) lookup succeeds is at most the number of products |
| Constraints.HitsPositive | minex.py:72-79 | that number is positive exactly when some product's lookup at (w, t) succeeds |
| Constraints.CapacityCountInProductRun | minex.py:72-81 | as written, the product loop for (w, t) appends (w, t)'s capacity constraint once per product whose lookup succeeds, and no other capacity constraint |
| Constraints.CapacityCountInTimeRun | minex.py:71-81 | the same count, over the periods so far at location w |
| Constraints.CapacityCountInLocationRun | minex.py:70-81 | the same count, over the locations so far |
| Constraints.CapacityCount | minex.py:70-81 | as written, every (w, t) of the index lists gets its capacity constraint exactly as many times as there are products whose (t, i, w) lookup succeeds, and no other capacity constraint is appended |
| Corrected.BuildConstraints | minex.py:70-81 | corrected: what `define_constraints` is meant to append; it holds exactly |L|·|T| capacity constraints, one per (location, period) of the lists |
| Corrected.LocationRunCapacities | minex.py:70-81 | the corrected loops over the first a locations append a·|T| capacity constraints |
| Lp.CountAppend | minex.py:75-81 | helper: the numbers of balance and capacity constraints add up over the concatenation of two constraint lists |
| Corrected.BalanceInProductRun | minex.py:72-79 | corrected product loop: it appends only balance constraints, `var(i, w, t) == d` exactly when the (i, t, w) key holds d |
| Corrected.BalanceInTimeRun | minex.py:71-79 | the same, over the periods so far |
| Corrected.BalanceInLocationRun | minex.py:70-79 | the same, over the locations so far |
| Corrected.BalanceIff | minex.py:73-79 | corrected: `var(i, w, t) == d` is appended exactly when (i, w, t) is on the grid and the table's own key (i, t, w) holds d |
| Corrected.CapacityCountInTimeRun | minex.py:71-81 | corrected time loop: each of its periods contributes w's capacity constraint exactly once |
| Corrected.CapacityCountInLocationRun | minex.py:70-81 | the same, over the locations so far |
| Corrected.CapacityOncePerPeriod | minex.py:70-81 | corrected: every (w, t) of the index lists gets exactly one capacity constraint, whatever the lookups found, and there is no other |
| Inventory.Formulate | minex.py:86-90 | every location the model indexes has a parameter row |
| Inventory.ModelIsComplete | minex.py:51-81 | the formulated model has |P|·|L|·|T| variables, an objective charging each exactly once at its holding cost, and constraints over allocated variables only |
| Inventory.BalanceMatchesOrders | minex.py:23-79 | end to end: `var(i, w, t) == d` is in the model exactly when (i, w, t) is a variable, some order carries the key (t, i, w) and d is that group's total |
| Inventory.InventoryModel.constructor | minex.py:14-26 | the table is the aggregation of the records; the problem is a fresh, empty minimisation named `Inventory_Optimization` |
| Inventory.InventoryModel.DefineIndices | minex.py:28-38 | the three index fields become the derived index lists |
| Inventory.InventoryModel.DefineParameters | minex.py:40-46 | the location table field becomes the given table |
| Inventory.InventoryModel.DefineVariables | minex.py:48-55 | the variable field becomes the dense allocation over the current index lists |
| Inventory.InventoryModel.DefineObjective | minex.py:57-65 | the problem's objective becomes the holding-cost terms; nothing else changes |
| Inventory.InventoryModel.DefineConstraints | minex.py:67-81 | appends exactly `BuildConstraints` of the current fields to the constraints already present, in loop order; nothing else changes |
| Inventory.InventoryModel.ConstrainPeriods | minex.py:71-81 | the time loop for location w appends what the specification's time run gives |
| Inventory.InventoryModel.ConstrainProducts | minex.py:72-81 | the product loop for (w, t) appends what the specification's product run gives; a failed lookup appends nothing |
| Inventory.InventoryModel.BuildModel | minex.py:83-90 | after the five calls, in `build_model`'s order, the fields and the problem are those of `Formulate`, with the constraints appended to those already present |
| Findings.KeyOrderLosesDemand | minex.py:76 | one order of 30 units of product 1 in period 2 at location 9 yields no constraint as written; corrected, it yields its balance and capacity constraints |
| Findings.KeyOrderSwapsDemand | minex.py:76 | as written, product 1 in period 2 is balanced against product 2's demand in period 1 |
| Findings.CorrectedKeepsDemand | minex.py:76 | corrected, it is balanced against its own demand |
| Findings.CapacityRepeatedPerProduct | minex.py:80-81 | as written, the lookups at (9, 1) are (1, 1, 9) and (1, 2, 9); both succeed on the four orders, so (9, 1)'s capacity constraint appears twice |
| Findings.CapacityCountsTransposedHits | minex.py:73-81 | as written, with only the orders (1, 1, 9) and (2, 1, 9) both products have demand at (9, 1), yet only the lookup (1, 1, 9) succeeds, so (9, 1)'s capacity constraint appears once: the repeat counts successful transposed lookups |
| Findings.CorrectedCapacityOnce | minex.py:80-81 | corrected, it appears once |
| Findings.OrderTableIsAggregate | minex.py:23 | the table used in the findings is the aggregation of their four orders |
| Findings.OrderIndices | minex.py:33-38 | the index lists used in the findings are those derived from those orders |

## Left out

- Reading the CSV files is not modelled, because it is I/O. This covers `pd.read_csv` in `__init__` and `define_paramaters`. The order records and the location table are parameters instead. `define_paramaters`' fixed file name `loc_data.csv` is gone with it.
- The column-name fields (`product_col`, `time_col`, `loc_col`, `qty_col`) are not modelled. The record fields stand for the columns.
- The `print` in `__init__` and the module-level script at the end of `minex.py` are left out, because they are I/O.
- The row order of pandas' `groupby(...).sum()` is given to the constructor as `rows`, required to list each key of the table once. It belongs to a library that is not part of this model. `get_level_values(...).unique()` is modelled as first-occurrence deduplication over that order.
- PuLP internals are not modelled: `LpVariable` objects, variable names, `lpSum` of a pandas Series minus a variable, and constraint naming. Variables, terms and constraints are plain values. `LpVariable.dicts`' nested dictionary is flattened to a map keyed by (i, w, t).
- The CPLEX solve in `build_model` is not modelled, because it is an external solver call. Nothing is stated about optimality or feasibility.
- Demand.Aggregate: records with a missing product, time or location are not modelled; `OrderRecord` cannot express a missing key. `groupby` drops such records by default, and `.sum()` skips missing quantities.
- Floating-point arithmetic and NaN are not modelled. Quantities, costs and capacities are `real`.
- A location without a parameter row is a precondition: `DefineObjective` and `DefineConstraints` require every indexed location to have one. Under `build_model` the code raises `KeyError` for that case inside pandas, in `define_objective` (line 60), with no handling. `define_constraints` on its own reads a location's row only after a successful lookup there (line 81), so it would accept a location with no row at which every lookup fails. `ConstrainPeriods` and `ConstrainProducts` require the row in every case. That difference is never reached through `BuildModel`, which calls `DefineObjective` first.
- Formulation.ObjectiveIsHoldingCost: a location with holding cost 0 keeps its terms, with coefficient 0, in the objective. PuLP may drop such terms when it multiplies by 0. The linear function is the same either way.
- Inventory.InventoryModel: the fields the pipeline fills start out empty (`[]`, `map[]`) rather than absent. Calling the steps out of `build_model`'s order therefore runs without error, where Python raises `AttributeError`. For example, `DefineVariables` before `DefineIndices` allocates nothing. `build_model`'s own order never reaches these cases.
- Inventory.InventoryModel.DefineConstraints: it does not read the variable field `invLevel` as line 76 does. Each constraint names its variable by its index (i, w, t), which `Inventory.ModelIsComplete` proves is an allocated variable.
- Inventory.InventoryModel.DefineConstraints: the time loop and the product loop are written as the helper methods `ConstrainPeriods` and `ConstrainProducts`, each with its own loop invariant. The order of appends and the state changes are those of the nested loops.

## Findings

| source | as written | input that shows it | evidently intended | confidence | as-written member | corrected member |
|---|---|---|---|---|---|---|
| minex.py:76 | the demand lookup uses the key (t, i, w) against a table whose levels are (product, time, location) | one order: product 1, period 2, location 9, 30 units; no constraint is appended | look up (i, t, w), so each product's own demand is found | high; not executed | Findings.KeyOrderLosesDemand | Corrected.BalanceIff |
| minex.py:76 | when the transposed key exists, a different group's demand is used | orders (1,1,9)=10, (1,2,9)=20, (2,1,9)=30, (2,2,9)=40: `var(1, 9, 2) == 30` instead of 20 | balance each variable against its own group's total | high; not executed | Findings.KeyOrderSwapsDemand | Findings.CorrectedKeepsDemand |
| minex.py:80-81 | the capacity constraint of (w, t) is appended inside the product loop, after the `continue` | the same four orders: the capacity constraint of (9, 1) is appended twice | one capacity constraint per (location, period), appended after the product loop | medium (duplicates leave the feasible region unchanged); not executed | Findings.CapacityRepeatedPerProduct | Corrected.CapacityOncePerPeriod |
