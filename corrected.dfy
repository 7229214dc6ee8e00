/**
  The constraints `define_constraints` is meant to append: for every location
  w and period t, one balance constraint `var(i, w, t) == d` for each product
  i whose demand d is found under the table's own key order (i, t, w), then
  one capacity constraint bounding the sum of the variables of every product
  at (w, t) by w's capacity. Module `Constraints` holds the definition as
  the code is written, and module `Findings` sets the two side by side.
*/
module Corrected {
  import opened Wrappers
  import opened Seqs
  import opened Demand
  import opened Indices
  import opened Lp
  import opened Formulation

  /** The balance constraint of product `i` at (w, t), when the table holds demand for it. */
  function BalanceOf<K(==)>(table: Table<K>, i: K, w: K, t: K): seq<Constraint<K>> {
    match Lookup(table, Key(i, t, w))
    case None => []
    case Some(demand) => [Balance(VarIndex(i, w, t), demand)]
  }

  /** The capacity constraint of (w, t). */
  function CapacityAt<K(==,!new)>(prods: seq<K>, locData: LocTable<K>, w: K, t: K): Constraint<K>
    requires w in locData
  {
    Capacity(w, t, CapacityVars(prods, w, t), locData[w].holdCap)
  }

  /** What the product loop appends at (w, t) over the first `c` products. */
  function ProductRun<K(==)>(prods: seq<K>, c: nat, table: Table<K>, w: K, t: K): seq<Constraint<K>>
    requires c <= |prods|
  {
    if c == 0 then []
    else ProductRun(prods, c - 1, table, w, t) + BalanceOf(table, prods[c - 1], w, t)
  }

  /** What the time loop appends at location `w` over the first `b` periods. */
  function TimeRun<K(==,!new)>(prods: seq<K>, times: seq<K>, b: nat, table: Table<K>, locData: LocTable<K>, w: K): seq<Constraint<K>>
    requires b <= |times| && w in locData
  {
    if b == 0 then []
    else
      var t := times[b - 1];
      TimeRun(prods, times, b - 1, table, locData, w) + ProductRun(prods, |prods|, table, w, t) + [CapacityAt(prods, locData, w, t)]
  }

  /** What the location loop appends over the first `a` locations. */
  function LocationRun<K(==,!new)>(prods: seq<K>, times: seq<K>, locs: seq<K>, a: nat, table: Table<K>, locData: LocTable<K>): seq<Constraint<K>>
    requires a <= |locs| && Covers(locData, locs)
  {
    if a == 0 then []
    else LocationRun(prods, times, locs, a - 1, table, locData) + TimeRun(prods, times, |times|, table, locData, locs[a - 1])
  }

  /** Everything one call of `define_constraints` appends, in order. */
  function BuildConstraints<K(==,!new)>(ix: IndexSets<K>, table: Table<K>, locData: LocTable<K>): (r: seq<Constraint<K>>)
    requires Covers(locData, ix.locations)
    ensures CountCapacities(r) == |ix.locations| * |ix.times|
  {
    LocationRunCapacities(ix.products, ix.times, ix.locations, |ix.locations|, table, locData);
    LocationRun(ix.products, ix.times, ix.locations, |ix.locations|, table, locData)
  }

  // ---------------------------------------------------------------------------
  // How many capacity constraints

  lemma {:induction false} ProductRunCapacities<K(!new)>(prods: seq<K>, c: nat, table: Table<K>, w: K, t: K)
    requires c <= |prods|
    ensures CountCapacities(ProductRun(prods, c, table, w, t)) == 0
  {
    if c != 0 {
      var bal := BalanceOf(table, prods[c - 1], w, t);
      assert CountCapacities(bal) == 0 by {
        if bal != [] { assert bal[1..] == []; }
      }
      ProductRunCapacities(prods, c - 1, table, w, t);
      CountAppend(ProductRun(prods, c - 1, table, w, t), bal);
    }
  }

  lemma {:induction false} TimeRunCapacities<K(!new)>(prods: seq<K>, times: seq<K>, b: nat, table: Table<K>, locData: LocTable<K>, w: K)
    requires b <= |times| && w in locData
    ensures CountCapacities(TimeRun(prods, times, b, table, locData, w)) == b
  {
    if b != 0 {
      var t := times[b - 1];
      var prev, run, cap := TimeRun(prods, times, b - 1, table, locData, w), ProductRun(prods, |prods|, table, w, t), [CapacityAt(prods, locData, w, t)];
      TimeRunCapacities(prods, times, b - 1, table, locData, w);
      ProductRunCapacities(prods, |prods|, table, w, t);
      CountAppend(prev, run);
      CountAppend(prev + run, cap);
      assert cap[1..] == [];
    }
  }

  /** The corrected loops append one capacity constraint per (location, period) pair of the lists. */
  lemma {:induction false} LocationRunCapacities<K(!new)>(prods: seq<K>, times: seq<K>, locs: seq<K>, a: nat, table: Table<K>, locData: LocTable<K>)
    requires a <= |locs| && Covers(locData, locs)
    ensures CountCapacities(LocationRun(prods, times, locs, a, table, locData)) == a * |times|
  {
    if a != 0 {
      LocationRunCapacities(prods, times, locs, a - 1, table, locData);
      TimeRunCapacities(prods, times, |times|, table, locData, locs[a - 1]);
      CountAppend(LocationRun(prods, times, locs, a - 1, table, locData), TimeRun(prods, times, |times|, table, locData, locs[a - 1]));
      assert (a - 1) * |times| + |times| == a * |times|;
    }
  }

  // ---------------------------------------------------------------------------
  // Balance constraints

  /** `d` is the demand the table records for variable `v`'s (product, time, location). */
  ghost predicate BalanceWanted<K>(table: Table<K>, v: VarIndex<K>, d: real) {
    Key(v.product, v.time, v.location) in table && d == table[Key(v.product, v.time, v.location)]
  }

  lemma {:induction false} BalanceInProductRun<K(!new)>(prods: seq<K>, c: nat, table: Table<K>, w: K, t: K, v: VarIndex<K>, d: real)
    requires c <= |prods|
    ensures forall x :: x in ProductRun(prods, c, table, w, t) ==> x.Balance?
    ensures Balance(v, d) in ProductRun(prods, c, table, w, t) <==>
      v.product in prods[..c] && v.location == w && v.time == t && BalanceWanted(table, v, d)
  {
    if c != 0 {
      var i := prods[c - 1];
      assert prods[..c] == prods[..c - 1] + [i];
      assert v.product in prods[..c] <==> v.product in prods[..c - 1] || v.product == i;
      BalanceInProductRun(prods, c - 1, table, w, t, v, d);
    }
  }

  lemma {:induction false} BalanceInTimeRun<K(!new)>(prods: seq<K>, times: seq<K>, b: nat, table: Table<K>, locData: LocTable<K>, w: K, v: VarIndex<K>, d: real)
    requires b <= |times| && w in locData
    ensures Balance(v, d) in TimeRun(prods, times, b, table, locData, w) <==>
      v.product in prods && v.location == w && v.time in times[..b] && BalanceWanted(table, v, d)
  {
    if b != 0 {
      var t := times[b - 1];
      assert times[..b] == times[..b - 1] + [t];
      assert v.time in times[..b] <==> v.time in times[..b - 1] || v.time == t;
      assert prods[..|prods|] == prods;
      BalanceInTimeRun(prods, times, b - 1, table, locData, w, v, d);
      BalanceInProductRun(prods, |prods|, table, w, t, v, d);
    }
  }

  lemma {:induction false} BalanceInLocationRun<K(!new)>(prods: seq<K>, times: seq<K>, locs: seq<K>, a: nat, table: Table<K>, locData: LocTable<K>, v: VarIndex<K>, d: real)
    requires a <= |locs| && Covers(locData, locs)
    ensures Balance(v, d) in LocationRun(prods, times, locs, a, table, locData) <==>
      v.product in prods && v.location in locs[..a] && v.time in times && BalanceWanted(table, v, d)
  {
    if a != 0 {
      var w := locs[a - 1];
      assert locs[..a] == locs[..a - 1] + [w];
      assert v.location in locs[..a] <==> v.location in locs[..a - 1] || v.location == w;
      assert times[..|times|] == times;
      BalanceInLocationRun(prods, times, locs, a - 1, table, locData, v, d);
      BalanceInTimeRun(prods, times, |times|, table, locData, w, v, d);
    }
  }

  /**
    The balance constraint `var(i, w, t) == d` is appended exactly when
    (i, w, t) indexes a variable, the table holds demand for product i in
    period t at location w, and d is that demand.
  */
  lemma BalanceIff<K(!new)>(ix: IndexSets<K>, table: Table<K>, locData: LocTable<K>, v: VarIndex<K>, d: real)
    requires Covers(locData, ix.locations)
    ensures Balance(v, d) in BuildConstraints(ix, table, locData) <==>
      && v.product in ix.products && v.location in ix.locations && v.time in ix.times
      && Key(v.product, v.time, v.location) in table
      && d == table[Key(v.product, v.time, v.location)]
  {
    assert ix.locations[..|ix.locations|] == ix.locations;
    BalanceInLocationRun(ix.products, ix.times, ix.locations, |ix.locations|, table, locData, v, d);
  }

  // ---------------------------------------------------------------------------
  // Capacity constraints

  /**
    Within one location's run, the capacity constraint `x` occurs once for
    each period among the first `b` that it belongs to, and never otherwise.
  */
  lemma {:induction false} CapacityCountInTimeRun<K(!new)>(prods: seq<K>, times: seq<K>, b: nat, table: Table<K>, locData: LocTable<K>, w: K, x: Constraint<K>)
    requires b <= |times| && w in locData && NoDups(times) && x.Capacity?
    ensures multiset(TimeRun(prods, times, b, table, locData, w))[x] ==
      if x.time in times[..b] && x == CapacityAt(prods, locData, w, x.time) then 1 else 0
  {
    if b != 0 {
      var t := times[b - 1];
      var run := ProductRun(prods, |prods|, table, w, t);
      assert times[..b] == times[..b - 1] + [t];
      assert t !in times[..b - 1];
      BalanceInProductRun(prods, |prods|, table, w, t, VarIndex(w, w, w), 0.0);
      assert x !in run;
      CapacityCountInTimeRun(prods, times, b - 1, table, locData, w, x);
      assert TimeRun(prods, times, b, table, locData, w) == TimeRun(prods, times, b - 1, table, locData, w) + run + [CapacityAt(prods, locData, w, t)];
    }
  }

  lemma {:induction false} CapacityCountInLocationRun<K(!new)>(prods: seq<K>, times: seq<K>, locs: seq<K>, a: nat, table: Table<K>, locData: LocTable<K>, x: Constraint<K>)
    requires a <= |locs| && Covers(locData, locs) && NoDups(times) && NoDups(locs) && x.Capacity?
    ensures multiset(LocationRun(prods, times, locs, a, table, locData))[x] ==
      if x.location in locs[..a] && x.time in times && x == CapacityAt(prods, locData, x.location, x.time) then 1 else 0
  {
    if a != 0 {
      var w := locs[a - 1];
      assert locs[..a] == locs[..a - 1] + [w];
      assert w !in locs[..a - 1];
      assert times[..|times|] == times;
      CapacityCountInLocationRun(prods, times, locs, a - 1, table, locData, x);
      CapacityCountInTimeRun(prods, times, |times|, table, locData, w, x);
    }
  }

  /**
    Every (location, period) of the index lists gets exactly one capacity
    constraint, bounding the sum of the variables of every product there by
    the location's capacity, whether or not any demand was found there; no
    other capacity constraint is appended.
  */
  lemma CapacityOncePerPeriod<K(!new)>(ix: IndexSets<K>, table: Table<K>, locData: LocTable<K>, c: Constraint<K>)
    requires Covers(locData, ix.locations) && NoDups(ix.times) && NoDups(ix.locations) && c.Capacity?
    ensures multiset(BuildConstraints(ix, table, locData))[c] ==
      if && c.location in ix.locations && c.time in ix.times
         && c.vars == CapacityVars(ix.products, c.location, c.time)
         && c.cap == locData[c.location].holdCap
      then 1 else 0
  {
    assert ix.locations[..|ix.locations|] == ix.locations;
    CapacityCountInLocationRun(ix.products, ix.times, ix.locations, |ix.locations|, table, locData, c);
  }
}
