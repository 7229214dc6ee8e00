/**
  The model builder as specification functions: the dense variable grid
  (`define_variables`), the holding-cost objective (`define_objective`) and
  the constraint list that `define_constraints` appends, in loop order.
*/
module Formulation {
  import opened Wrappers
  import opened Seqs
  import opened Demand
  import opened Indices
  import opened Lp

  /** A row of the location table: `Hold. Costs` and `Hold. Cap.`. */
  datatype LocParams = LocParams(holdCost: real, holdCap: real)

  type LocTable<K(==)> = map<K, LocParams>

  /** Every location of `locs` has a parameter row. */
  ghost predicate Covers<K>(locData: LocTable<K>, locs: seq<K>) {
    forall w :: w in locs ==> w in locData
  }

  // ---------------------------------------------------------------------------
  // Variables

  /** Product `i` at location `w`, every time period in order. */
  function Column<K(==,!new)>(i: K, w: K, times: seq<K>): (vs: seq<VarIndex<K>>)
    ensures |vs| == |times|
    ensures forall j :: 0 <= j < |times| ==> vs[j] == VarIndex(i, w, times[j])
  {
    seq(|times|, j requires 0 <= j < |times| => VarIndex(i, w, times[j]))
  }

  /** Product `i`, every location and within it every time period. */
  function Plane<K(==,!new)>(i: K, locs: seq<K>, times: seq<K>): (vs: seq<VarIndex<K>>)
    ensures forall v :: v in vs <==> v.product == i && v.location in locs && v.time in times
  {
    if locs == [] then []
    else
      var vs := Column(i, locs[0], times) + Plane(i, locs[1..], times);
      assert forall v :: v in Column(i, locs[0], times) <==> v.product == i && v.location == locs[0] && v.time in times by {
        forall v: VarIndex<K> | v.product == i && v.location == locs[0] && v.time in times
          ensures v in Column(i, locs[0], times)
        {
          var j :| 0 <= j < |times| && times[j] == v.time;
          assert Column(i, locs[0], times)[j] == v;
        }
      }
      assert forall w :: w in locs <==> w == locs[0] || w in locs[1..] by {
        assert locs == [locs[0]] + locs[1..];
      }
      vs
  }

  /**
    The variable indices in the order of the nested dictionary and of the
    objective's generator: product, then location, then time.
  */
  function Grid<K(==,!new)>(prods: seq<K>, locs: seq<K>, times: seq<K>): (vs: seq<VarIndex<K>>)
    ensures forall v :: v in vs <==> v.product in prods && v.location in locs && v.time in times
  {
    if prods == [] then []
    else
      var vs := Plane(prods[0], locs, times) + Grid(prods[1..], locs, times);
      assert forall i :: i in prods <==> i == prods[0] || i in prods[1..] by {
        assert prods == [prods[0]] + prods[1..];
      }
      vs
  }

  lemma {:induction false} PlaneSize<K(!new)>(i: K, locs: seq<K>, times: seq<K>)
    ensures |Plane(i, locs, times)| == |locs| * |times|
  {
    if locs != [] {
      PlaneSize(i, locs[1..], times);
      assert |Plane(i, locs, times)| == |times| + |Plane(i, locs[1..], times)|;
      assert |locs| * |times| == |times| + (|locs| - 1) * |times|;
    }
  }

  lemma PeelFactor(n: int, a: int, b: int)
    ensures n * a * b == a * b + (n - 1) * a * b
  {
  }

  /** The grid has |P|·|L|·|T| entries. */
  lemma {:induction false} GridSize<K(!new)>(prods: seq<K>, locs: seq<K>, times: seq<K>)
    ensures |Grid(prods, locs, times)| == |prods| * |locs| * |times|
  {
    if prods != [] {
      PlaneSize(prods[0], locs, times);
      GridSize(prods[1..], locs, times);
      assert |Grid(prods, locs, times)| == |Plane(prods[0], locs, times)| + |Grid(prods[1..], locs, times)|;
      PeelFactor(|prods|, |locs|, |times|);
    }
  }

  lemma ColumnNoDups<K(!new)>(i: K, w: K, times: seq<K>)
    requires NoDups(times)
    ensures NoDups(Column(i, w, times))
  {
  }

  lemma {:induction false} PlaneNoDups<K(!new)>(i: K, locs: seq<K>, times: seq<K>)
    requires NoDups(locs) && NoDups(times)
    ensures NoDups(Plane(i, locs, times))
  {
    if locs != [] {
      assert NoDups(locs[1..]) by {
        assert forall a :: 0 <= a < |locs| - 1 ==> locs[1..][a] == locs[a + 1];
      }
      assert locs[0] !in locs[1..] by {
        assert forall a :: 0 <= a < |locs| - 1 ==> locs[1..][a] == locs[a + 1];
      }
      ColumnNoDups(i, locs[0], times);
      PlaneNoDups(i, locs[1..], times);
      NoDupsAppend(Column(i, locs[0], times), Plane(i, locs[1..], times));
    }
  }

  /** Over index lists without repeats, no variable index is listed twice. */
  lemma {:induction false} GridNoDups<K(!new)>(prods: seq<K>, locs: seq<K>, times: seq<K>)
    requires NoDups(prods) && NoDups(locs) && NoDups(times)
    ensures NoDups(Grid(prods, locs, times))
  {
    if prods != [] {
      assert NoDups(prods[1..]) by {
        assert forall a :: 0 <= a < |prods| - 1 ==> prods[1..][a] == prods[a + 1];
      }
      assert prods[0] !in prods[1..] by {
        assert forall a :: 0 <= a < |prods| - 1 ==> prods[1..][a] == prods[a + 1];
      }
      PlaneNoDups(prods[0], locs, times);
      GridNoDups(prods[1..], locs, times);
      NoDupsAppend(Plane(prods[0], locs, times), Grid(prods[1..], locs, times));
    }
  }

  /**
    `define_variables`: one variable per (product, location, time) of the
    Cartesian product, continuous, bounded below by 0 and not above.
  */
  function AllocateVariables<K(==,!new)>(ix: IndexSets<K>): (vars: map<VarIndex<K>, Variable<K>>)
    ensures forall v :: v in vars <==> v.product in ix.products && v.location in ix.locations && v.time in ix.times
    ensures forall v :: v in vars ==> vars[v].index == v && vars[v].lowBound == Some(0.0) && vars[v].upBound == None
  {
    map v | v in Grid(ix.products, ix.locations, ix.times) :: Variable(v, Some(0.0), None)
  }

  /** The dense allocation makes exactly |P|·|L|·|T| variables. */
  lemma VariableCount<K(!new)>(ix: IndexSets<K>)
    requires NoDups(ix.products) && NoDups(ix.locations) && NoDups(ix.times)
    ensures |AllocateVariables(ix)| == |ix.products| * |ix.locations| * |ix.times|
  {
    var g := Grid(ix.products, ix.locations, ix.times);
    GridNoDups(ix.products, ix.locations, ix.times);
    GridSize(ix.products, ix.locations, ix.times);
    NoDupsCardinality(g);
    assert AllocateVariables(ix).Keys == set v | v in g;
  }

  // ---------------------------------------------------------------------------
  // Objective

  /**
    `define_objective`: each variable, in generator order, times the holding
    cost of its location.
  */
  function HoldingCostTerms<K(==,!new)>(ix: IndexSets<K>, locData: LocTable<K>): (terms: seq<Term<K>>)
    requires Covers(locData, ix.locations)
    ensures TermVars(terms) == Grid(ix.products, ix.locations, ix.times)
    ensures forall j :: 0 <= j < |terms| ==> terms[j].v.location in ix.locations
    ensures forall j :: 0 <= j < |terms| ==> terms[j].coef == locData[terms[j].v.location].holdCost
  {
    var g := Grid(ix.products, ix.locations, ix.times);
    assert forall j :: 0 <= j < |g| ==> g[j].location in ix.locations;
    var terms := seq(|g|, j requires 0 <= j < |g| => Term(g[j], locData[g[j].location].holdCost));
    assert forall j :: 0 <= j < |terms| ==> terms[j].v == g[j];
    terms
  }

  /** The variables the objective mentions are those of the grid. */
  lemma ObjectiveVarsAreGrid<K(!new)>(ix: IndexSets<K>, locData: LocTable<K>)
    requires Covers(locData, ix.locations)
    ensures forall v :: v in Combine(HoldingCostTerms(ix, locData)) <==> v in Grid(ix.products, ix.locations, ix.times)
  {
  }

  /**
    The objective mentions every allocated variable exactly once, with the
    holding cost of its location as coefficient, and mentions nothing else.
  */
  lemma ObjectiveIsHoldingCost<K(!new)>(ix: IndexSets<K>, locData: LocTable<K>)
    requires NoDups(ix.products) && NoDups(ix.locations) && NoDups(ix.times)
    requires Covers(locData, ix.locations)
    ensures NoDups(TermVars(HoldingCostTerms(ix, locData)))
    ensures Combine(HoldingCostTerms(ix, locData)).Keys == AllocateVariables(ix).Keys
    ensures forall v :: v in AllocateVariables(ix) ==>
      Combine(HoldingCostTerms(ix, locData))[v] == locData[v.location].holdCost
  {
    var terms := HoldingCostTerms(ix, locData);
    var g := Grid(ix.products, ix.locations, ix.times);
    GridNoDups(ix.products, ix.locations, ix.times);
    ObjectiveVarsAreGrid(ix, locData);
    CombineDistinct(terms);
    forall v | v in AllocateVariables(ix)
      ensures Combine(terms)[v] == locData[v.location].holdCost
    {
      var j :| 0 <= j < |g| && g[j] == v;
      assert TermVars(terms)[j] == terms[j].v;
    }
  }

  // ---------------------------------------------------------------------------
  // Capacity sums

  /** The variables of every product at location `w` in period `t`, in product order. */
  function CapacityVars<K(==,!new)>(prods: seq<K>, w: K, t: K): (vs: seq<VarIndex<K>>)
    ensures forall v :: v in vs <==> v.product in prods && v.location == w && v.time == t
    ensures NoDups(prods) ==> NoDups(vs)
  {
    var vs := seq(|prods|, j requires 0 <= j < |prods| => VarIndex(prods[j], w, t));
    assert forall j :: 0 <= j < |prods| ==> vs[j].product == prods[j];
    vs
  }
}
