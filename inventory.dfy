/**
  The `InventoryModel` class: the pipeline state kept in fields and filled in
  by the calls of `build_model`, with `define_constraints` as three nested
  loops that append to the problem's constraint list.
*/
module Inventory {
  import opened Wrappers
  import opened Seqs
  import opened Demand
  import opened Indices
  import opened Lp
  import opened Formulation
  import opened Constraints

  const ProblemName: string := "Inventory_Optimization"

  /** `rows` lists every key of `table` once: the row order of the aggregated frame. */
  ghost predicate ListsKeysOnce<K(!new)>(rows: seq<Key<K>>, table: Table<K>) {
    NoDups(rows) && forall k :: k in rows <==> k in table
  }

  /** Everything `build_model` produces before the solve. */
  datatype Model<K(==)> = Model(indices: IndexSets<K>, variables: map<VarIndex<K>, Variable<K>>,
                                objective: seq<Term<K>>, constraints: seq<Constraint<K>>)

  /**
    The pipeline as one function of the aggregated table, its row order and
    the location table: indices, then variables, then objective, then
    constraints. Every location it indexes has a parameter row.
  */
  function Formulate<K(==,!new)>(table: Table<K>, rows: seq<Key<K>>, locData: LocTable<K>): (m: Model<K>)
    requires forall k :: k in rows ==> k.location in locData
    ensures Covers(locData, m.indices.locations)
  {
    var ix := DeriveIndices(rows);
    Model(ix, AllocateVariables(ix), HoldingCostTerms(ix, locData), BuildConstraints(ix, table, locData))
  }

  /**
    The formulated model has |P|·|L|·|T| variables, an objective that charges
    each of them once at its location's holding cost, and constraints that
    only use allocated variables.
  */
  lemma ModelIsComplete<K(!new)>(records: seq<OrderRecord<K>>, rows: seq<Key<K>>, locData: LocTable<K>)
    requires ListsKeysOnce(rows, Aggregate(records))
    requires forall k :: k in rows ==> k.location in locData
    ensures var m := Formulate(Aggregate(records), rows, locData);
      && |m.variables| == |m.indices.products| * |m.indices.locations| * |m.indices.times|
      && Combine(m.objective).Keys == m.variables.Keys
      && (forall v :: v in m.variables ==> Combine(m.objective)[v] == locData[v.location].holdCost)
      && (forall c :: c in m.constraints && c.Balance? ==> c.v in m.variables)
      && (forall c, v :: c in m.constraints && c.Capacity? && v in c.vars ==> v in m.variables)
  {
    var m := Formulate(Aggregate(records), rows, locData);
    var ix := m.indices;
    VariableCount(ix);
    ObjectiveIsHoldingCost(ix, locData);
    forall c | c in m.constraints && c.Balance? ensures c.v in m.variables {
      BalanceIff(ix, Aggregate(records), locData, c.v, c.demand);
    }
    forall c, v | c in m.constraints && c.Capacity? && v in c.vars ensures v in m.variables {
      CapacityIff(ix, Aggregate(records), locData, c);
    }
  }

  /**
    End to end: the model holds `var(i, w, t) == d` exactly when (i, w, t)
    is a variable, some order record has the key (t, i, w) -- the lookup's
    key order, read against the table's (product, time, location) -- and d
    is the total quantity of the records with that key.
  */
  lemma BalanceMatchesOrders<K(!new)>(records: seq<OrderRecord<K>>, rows: seq<Key<K>>, locData: LocTable<K>, v: VarIndex<K>, d: real)
    requires ListsKeysOnce(rows, Aggregate(records))
    requires forall k :: k in rows ==> k.location in locData
    ensures var m := Formulate(Aggregate(records), rows, locData);
      Balance(v, d) in m.constraints <==>
        && v in m.variables
        && (exists r :: r in records && KeyOf(r) == Key(v.time, v.product, v.location))
        && d == GroupTotal(records, Key(v.time, v.product, v.location))
  {
    var m := Formulate(Aggregate(records), rows, locData);
    var k := Key(v.time, v.product, v.location);
    BalanceIff(m.indices, Aggregate(records), locData, v, d);
    AggregateIsGroupTotal(records, k);
    assert k in Aggregate(records) <==> exists r :: r in records && KeyOf(r) == k;
  }

  class InventoryModel<K(==,!new)> {
    /** The aggregated demand table (`raw_data` after the group-by). */
    const rawData: Table<K>
    /** The order in which the aggregated frame lists its rows. */
    const rowOrder: seq<Key<K>>
    var prodId: seq<K>
    var timeId: seq<K>
    var locId: seq<K>
    var locData: LocTable<K>
    var invLevel: map<VarIndex<K>, Variable<K>>
    /** The problem object, created once and then added to. */
    const invModel: LpProblem<K>

    function CurrentIndices(): IndexSets<K>
      reads this
    {
      IndexSets(prodId, timeId, locId)
    }

    /**
      `__init__`: aggregates the order records and starts an empty
      minimisation problem. The CSV read is replaced by the records
      themselves, and the row order of the grouped frame is given.
    */
    constructor (records: seq<OrderRecord<K>>, rows: seq<Key<K>>)
      requires ListsKeysOnce(rows, Aggregate(records))
      ensures rawData == Aggregate(records) && rowOrder == rows
      ensures ListsKeysOnce(rowOrder, rawData)
      ensures prodId == [] && timeId == [] && locId == [] && locData == map[] && invLevel == map[]
      ensures fresh(invModel) && invModel.name == ProblemName && invModel.sense == Minimize
      ensures invModel.objective == [] && invModel.constraints == []
    {
      rawData := Aggregate(records);
      rowOrder := rows;
      prodId, timeId, locId := [], [], [];
      locData := map[];
      invLevel := map[];
      invModel := new LpProblem(ProblemName, Minimize);
    }

    /** `define_indices`. */
    method DefineIndices()
      modifies this`prodId, this`timeId, this`locId
      ensures CurrentIndices() == DeriveIndices(rowOrder)
    {
      var ix := DeriveIndices(rowOrder);
      prodId, timeId, locId := ix.products, ix.times, ix.locations;
    }

    /** `define_paramaters`: the location table, read elsewhere, is given. */
    method DefineParameters(table: LocTable<K>)
      modifies this`locData
      ensures locData == table
    {
      locData := table;
    }

    /** `define_variables`. */
    method DefineVariables()
      modifies this`invLevel
      ensures invLevel == AllocateVariables(CurrentIndices())
    {
      invLevel := AllocateVariables(CurrentIndices());
    }

    /** `define_objective`: sets the objective and changes nothing else. */
    method DefineObjective()
      requires Covers(locData, locId)
      modifies invModel`objective
      ensures invModel.objective == HoldingCostTerms(CurrentIndices(), locData)
    {
      invModel.SetObjective(HoldingCostTerms(CurrentIndices(), locData));
    }

    /**
      `define_constraints`: appends, in loop order, the constraints of
      `BuildConstraints` to those already present, and changes nothing else.
    */
    method DefineConstraints()
      requires Covers(locData, locId)
      modifies invModel`constraints
      ensures invModel.constraints == old(invModel.constraints) + BuildConstraints(CurrentIndices(), rawData, locData)
    {
      for a := 0 to |locId|
        invariant invModel.constraints == old(invModel.constraints) + LocationRun(prodId, timeId, locId, a, rawData, locData)
      {
        ConstrainPeriods(locId[a]);
      }
    }

    /** The time loop of `define_constraints` for location `w`. */
    method ConstrainPeriods(w: K)
      requires w in locData
      modifies invModel`constraints
      ensures invModel.constraints == old(invModel.constraints) + TimeRun(prodId, timeId, |timeId|, rawData, locData, w)
    {
      for b := 0 to |timeId|
        invariant invModel.constraints == old(invModel.constraints) + TimeRun(prodId, timeId, b, rawData, locData, w)
      {
        ConstrainProducts(w, timeId[b]);
      }
    }

    /**
      The product loop of `define_constraints` for location `w` and period
      `t`. The demand lookup uses the key (t, i, w); when it fails, the
      `continue` skips both appends, the capacity constraint included.
    */
    method ConstrainProducts(w: K, t: K)
      requires w in locData
      modifies invModel`constraints
      ensures invModel.constraints == old(invModel.constraints) + ProductRun(prodId, |prodId|, rawData, locData, w, t)
    {
      for c := 0 to |prodId|
        invariant invModel.constraints == old(invModel.constraints) + ProductRun(prodId, c, rawData, locData, w, t)
      {
        var i := prodId[c];
        var demand := Lookup(rawData, Key(t, i, w));
        if demand.None? {
          continue;
        }
        invModel.AddConstraint(Balance(VarIndex(i, w, t), demand.value));
        invModel.AddConstraint(Capacity(w, t, CapacityVars(prodId, w, t), locData[w].holdCap));
      }
    }

    /**
      `build_model` up to the solve: indices, variables, parameters,
      objective, constraints, in that order. The new state is that of
      `Formulate`, with the constraints appended to those already present.
    */
    method BuildModel(table: LocTable<K>)
      requires forall k :: k in rowOrder ==> k.location in table
      modifies this`prodId, this`timeId, this`locId, this`locData, this`invLevel
      modifies invModel`objective, invModel`constraints
      ensures var m := Formulate(rawData, rowOrder, table);
        && CurrentIndices() == m.indices && invLevel == m.variables && locData == table
        && invModel.objective == m.objective
        && invModel.constraints == old(invModel.constraints) + m.constraints
    {
      DefineIndices();
      DefineVariables();
      DefineParameters(table);
      DefineObjective();
      DefineConstraints();
    }
  }
}
