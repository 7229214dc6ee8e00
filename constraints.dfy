/**
  What `define_constraints` appends as the code is written: the demand lookup
  uses the key (t, i, w), and the capacity constraint of (w, t) sits inside
  the product loop, after the `continue`. A specification function follows
  the three loops (location, then time, then product); the lemmas say which
  constraints it holds and in what shape.
*/
module Constraints {
  import opened Wrappers
  import opened Seqs
  import opened Demand
  import opened Indices
  import opened Lp
  import opened Formulation

  /**
    One pass of the innermost loop body for product `i`: the demand lookup
    uses the key `(t, i, w)`, in that order, against a table whose keys are
    (product, time, location). When it fails nothing is appended, the
    capacity constraint included; when it succeeds the balance constraint is
    followed by the capacity constraint of (w, t).
  */
  function Emitted<K(==,!new)>(prods: seq<K>, table: Table<K>, locData: LocTable<K>, i: K, w: K, t: K): (r: seq<Constraint<K>>)
    requires w in locData
    ensures r == [] <==> Key(t, i, w) !in table
    ensures Key(t, i, w) in table ==>
      && |r| == 2
      && r[0] == Balance(VarIndex(i, w, t), table[Key(t, i, w)])
      && r[1].Capacity? && r[1].location == w && r[1].time == t
      && r[1].vars == CapacityVars(prods, w, t) && r[1].cap == locData[w].holdCap
  {
    match Lookup(table, Key(t, i, w))
    case None => []
    case Some(demand) => [Balance(VarIndex(i, w, t), demand), Capacity(w, t, CapacityVars(prods, w, t), locData[w].holdCap)]
  }

  /** A balance constraint directly followed by a capacity constraint for the same (location, time). */
  ghost predicate IsPair<K>(b: Constraint<K>, c: Constraint<K>) {
    b.Balance? && c.Capacity? && c.location == b.v.location && c.time == b.v.time
  }

  /** The list is a run of such pairs. */
  ghost predicate Paired<K>(cs: seq<Constraint<K>>)
    decreases |cs|
  {
    cs == [] || (|cs| >= 2 && IsPair(cs[0], cs[1]) && Paired(cs[2..]))
  }

  lemma {:induction false} PairedAppend<K>(a: seq<Constraint<K>>, b: seq<Constraint<K>>)
    requires Paired(a) && Paired(b)
    ensures Paired(a + b)
    decreases |a|
  {
    if a != [] {
      assert (a + b)[2..] == a[2..] + b;
      assert (a + b)[0] == a[0] && (a + b)[1] == a[1];
      PairedAppend(a[2..], b);
    } else {
      assert a + b == b;
    }
  }

  /** What the innermost loop emits for location `w` and period `t` over the first `c` products. */
  function ProductRun<K(==,!new)>(prods: seq<K>, c: nat, table: Table<K>, locData: LocTable<K>, w: K, t: K): seq<Constraint<K>>
    requires c <= |prods| && w in locData
  {
    if c == 0 then []
    else ProductRun(prods, c - 1, table, locData, w, t) + Emitted(prods, table, locData, prods[c - 1], w, t)
  }

  /** What the middle loop emits for location `w` over the first `b` periods. */
  function TimeRun<K(==,!new)>(prods: seq<K>, times: seq<K>, b: nat, table: Table<K>, locData: LocTable<K>, w: K): seq<Constraint<K>>
    requires b <= |times| && w in locData
  {
    if b == 0 then []
    else TimeRun(prods, times, b - 1, table, locData, w) + ProductRun(prods, |prods|, table, locData, w, times[b - 1])
  }

  /** What the outer loop emits over the first `a` locations. */
  function LocationRun<K(==,!new)>(prods: seq<K>, times: seq<K>, locs: seq<K>, a: nat, table: Table<K>, locData: LocTable<K>): seq<Constraint<K>>
    requires a <= |locs| && Covers(locData, locs)
  {
    if a == 0 then []
    else LocationRun(prods, times, locs, a - 1, table, locData) + TimeRun(prods, times, |times|, table, locData, locs[a - 1])
  }

  /** Everything one call of `define_constraints` appends, in order. */
  function BuildConstraints<K(==,!new)>(ix: IndexSets<K>, table: Table<K>, locData: LocTable<K>): (r: seq<Constraint<K>>)
    requires Covers(locData, ix.locations)
    ensures Paired(r)
  {
    LocationRunPaired(ix.products, ix.times, ix.locations, |ix.locations|, table, locData);
    LocationRun(ix.products, ix.times, ix.locations, |ix.locations|, table, locData)
  }

  lemma {:induction false} ProductRunPaired<K(!new)>(prods: seq<K>, c: nat, table: Table<K>, locData: LocTable<K>, w: K, t: K)
    requires c <= |prods| && w in locData
    ensures Paired(ProductRun(prods, c, table, locData, w, t))
  {
    if c != 0 {
      var now := Emitted(prods, table, locData, prods[c - 1], w, t);
      assert Paired(now) by {
        if now != [] { assert now[2..] == []; }
      }
      ProductRunPaired(prods, c - 1, table, locData, w, t);
      PairedAppend(ProductRun(prods, c - 1, table, locData, w, t), now);
    }
  }

  lemma {:induction false} TimeRunPaired<K(!new)>(prods: seq<K>, times: seq<K>, b: nat, table: Table<K>, locData: LocTable<K>, w: K)
    requires b <= |times| && w in locData
    ensures Paired(TimeRun(prods, times, b, table, locData, w))
  {
    if b != 0 {
      TimeRunPaired(prods, times, b - 1, table, locData, w);
      ProductRunPaired(prods, |prods|, table, locData, w, times[b - 1]);
      PairedAppend(TimeRun(prods, times, b - 1, table, locData, w), ProductRun(prods, |prods|, table, locData, w, times[b - 1]));
    }
  }

  lemma {:induction false} LocationRunPaired<K(!new)>(prods: seq<K>, times: seq<K>, locs: seq<K>, a: nat, table: Table<K>, locData: LocTable<K>)
    requires a <= |locs| && Covers(locData, locs)
    ensures Paired(LocationRun(prods, times, locs, a, table, locData))
  {
    if a != 0 {
      LocationRunPaired(prods, times, locs, a - 1, table, locData);
      TimeRunPaired(prods, times, |times|, table, locData, locs[a - 1]);
      PairedAppend(LocationRun(prods, times, locs, a - 1, table, locData), TimeRun(prods, times, |times|, table, locData, locs[a - 1]));
    }
  }

  // ---------------------------------------------------------------------------
  // Which balance constraints are emitted

  /** The balance constraint for (i, w, t) is emitted with right-hand side d. */
  ghost predicate BalanceWanted<K>(table: Table<K>, v: VarIndex<K>, d: real) {
    Key(v.time, v.product, v.location) in table && d == table[Key(v.time, v.product, v.location)]
  }

  lemma {:induction false} BalanceInProductRun<K(!new)>(prods: seq<K>, c: nat, table: Table<K>, locData: LocTable<K>, w: K, t: K, v: VarIndex<K>, d: real)
    requires c <= |prods| && w in locData
    ensures Balance(v, d) in ProductRun(prods, c, table, locData, w, t) <==>
      v.product in prods[..c] && v.location == w && v.time == t && BalanceWanted(table, v, d)
  {
    if c != 0 {
      var i := prods[c - 1];
      assert prods[..c] == prods[..c - 1] + [i];
      assert v.product in prods[..c] <==> v.product in prods[..c - 1] || v.product == i;
      BalanceInProductRun(prods, c - 1, table, locData, w, t, v, d);
      assert ProductRun(prods, c, table, locData, w, t)
        == ProductRun(prods, c - 1, table, locData, w, t) + Emitted(prods, table, locData, i, w, t);
    }
  }

  lemma {:induction false} BalanceInTimeRun<K(!new)>(prods: seq<K>, times: seq<K>, b: nat, table: Table<K>, locData: LocTable<K>, w: K, v: VarIndex<K>, d: real)
    requires b <= |times| && w in locData
    ensures Balance(v, d) in TimeRun(prods, times, b, table, locData, w) <==>
      v.product in prods && v.location == w && v.time in times[..b] && BalanceWanted(table, v, d)
  {
    if b != 0 {
      var t := times[b - 1];
      assert times[..b] == times[..b - 1] + [t];
      assert v.time in times[..b] <==> v.time in times[..b - 1] || v.time == t;
      assert prods[..|prods|] == prods;
      BalanceInTimeRun(prods, times, b - 1, table, locData, w, v, d);
      BalanceInProductRun(prods, |prods|, table, locData, w, t, v, d);
      assert TimeRun(prods, times, b, table, locData, w)
        == TimeRun(prods, times, b - 1, table, locData, w) + ProductRun(prods, |prods|, table, locData, w, t);
    }
  }

  lemma {:induction false} BalanceInLocationRun<K(!new)>(prods: seq<K>, times: seq<K>, locs: seq<K>, a: nat, table: Table<K>, locData: LocTable<K>, v: VarIndex<K>, d: real)
    requires a <= |locs| && Covers(locData, locs)
    ensures Balance(v, d) in LocationRun(prods, times, locs, a, table, locData) <==>
      v.product in prods && v.location in locs[..a] && v.time in times && BalanceWanted(table, v, d)
  {
    if a != 0 {
      var w := locs[a - 1];
      assert locs[..a] == locs[..a - 1] + [w];
      assert v.location in locs[..a] <==> v.location in locs[..a - 1] || v.location == w;
      assert times[..|times|] == times;
      BalanceInLocationRun(prods, times, locs, a - 1, table, locData, v, d);
      BalanceInTimeRun(prods, times, |times|, table, locData, w, v, d);
      assert LocationRun(prods, times, locs, a, table, locData)
        == LocationRun(prods, times, locs, a - 1, table, locData) + TimeRun(prods, times, |times|, table, locData, w);
    }
  }

  /**
    A balance constraint `var(i, w, t) == d` is emitted exactly when (i, w, t)
    is in the grid and the lookup of the key (t, i, w) finds d; an absent key
    gives no constraint, never one with right-hand side 0.
  */
  lemma BalanceIff<K(!new)>(ix: IndexSets<K>, table: Table<K>, locData: LocTable<K>, v: VarIndex<K>, d: real)
    requires Covers(locData, ix.locations)
    ensures Balance(v, d) in BuildConstraints(ix, table, locData) <==>
      && v.product in ix.products && v.location in ix.locations && v.time in ix.times
      && Key(v.time, v.product, v.location) in table
      && d == table[Key(v.time, v.product, v.location)]
  {
    assert ix.locations[..|ix.locations|] == ix.locations;
    BalanceInLocationRun(ix.products, ix.times, ix.locations, |ix.locations|, table, locData, v, d);
  }

  // ---------------------------------------------------------------------------
  // Which capacity constraints are emitted

  /** Capacity constraint `c` is the one for (w, t): all products' variables, bounded by w's capacity. */
  ghost predicate CapacityOf<K(!new)>(prods: seq<K>, locData: LocTable<K>, c: Constraint<K>, w: K, t: K)
    requires c.Capacity? && w in locData
  {
    c.location == w && c.time == t && c.vars == CapacityVars(prods, w, t) && c.cap == locData[w].holdCap
  }

  lemma {:induction false} CapacityInProductRun<K(!new)>(prods: seq<K>, c: nat, table: Table<K>, locData: LocTable<K>, w: K, t: K, x: Constraint<K>)
    requires c <= |prods| && w in locData && x.Capacity?
    ensures x in ProductRun(prods, c, table, locData, w, t) <==>
      CapacityOf(prods, locData, x, w, t) && exists i :: i in prods[..c] && Key(t, i, w) in table
  {
    if c != 0 {
      var q, i := prods[..c - 1], prods[c - 1];
      assert prods[..c] == q + [i];
      CapacityInProductRun(prods, c - 1, table, locData, w, t, x);
      if exists j :: j in prods[..c] && Key(t, j, w) in table {
        var j :| j in prods[..c] && Key(t, j, w) in table;
        assert j in q || j == i;
      }
    }
  }

  lemma {:induction false} CapacityInTimeRun<K(!new)>(prods: seq<K>, times: seq<K>, b: nat, table: Table<K>, locData: LocTable<K>, w: K, x: Constraint<K>)
    requires b <= |times| && w in locData && x.Capacity?
    ensures x in TimeRun(prods, times, b, table, locData, w) <==>
      x.time in times[..b] && CapacityOf(prods, locData, x, w, x.time) && exists i :: i in prods && Key(x.time, i, w) in table
  {
    if b != 0 {
      assert times[..b] == times[..b - 1] + [times[b - 1]];
      assert prods[..|prods|] == prods;
      CapacityInTimeRun(prods, times, b - 1, table, locData, w, x);
      CapacityInProductRun(prods, |prods|, table, locData, w, times[b - 1], x);
    }
  }

  lemma {:induction false} CapacityInLocationRun<K(!new)>(prods: seq<K>, times: seq<K>, locs: seq<K>, a: nat, table: Table<K>, locData: LocTable<K>, x: Constraint<K>)
    requires a <= |locs| && Covers(locData, locs) && x.Capacity?
    ensures x in LocationRun(prods, times, locs, a, table, locData) <==>
      && x.location in locs[..a] && x.time in times
      && CapacityOf(prods, locData, x, x.location, x.time)
      && exists i :: i in prods && Key(x.time, i, x.location) in table
  {
    if a != 0 {
      assert locs[..a] == locs[..a - 1] + [locs[a - 1]];
      assert times[..|times|] == times;
      CapacityInLocationRun(prods, times, locs, a - 1, table, locData, x);
      CapacityInTimeRun(prods, times, |times|, table, locData, locs[a - 1], x);
    }
  }

  /**
    A capacity constraint for (w, t) is emitted exactly when some product's
    demand lookup at (w, t) succeeds; it bounds the sum of the variables of
    every product at (w, t), not only of that product, by w's capacity. A
    (w, t) whose lookups all fail gets none.
  */
  lemma CapacityIff<K(!new)>(ix: IndexSets<K>, table: Table<K>, locData: LocTable<K>, c: Constraint<K>)
    requires Covers(locData, ix.locations) && c.Capacity?
    ensures c in BuildConstraints(ix, table, locData) <==>
      && c.location in ix.locations && c.time in ix.times
      && (exists i :: i in ix.products && Key(c.time, i, c.location) in table)
      && c.vars == CapacityVars(ix.products, c.location, c.time)
      && c.cap == locData[c.location].holdCap
  {
    assert ix.locations[..|ix.locations|] == ix.locations;
    CapacityInLocationRun(ix.products, ix.times, ix.locations, |ix.locations|, table, locData, c);
  }

  // ---------------------------------------------------------------------------
  // How many times each capacity constraint is emitted

  /** How many of the first `c` products have a successful (t, i, w) lookup. */
  function Hits<K(==,!new)>(prods: seq<K>, c: nat, table: Table<K>, w: K, t: K): (n: nat)
    requires c <= |prods|
    ensures n <= c
  {
    if c == 0 then 0
    else Hits(prods, c - 1, table, w, t) + (if Key(t, prods[c - 1], w) in table then 1 else 0)
  }

  /** Some lookup at (w, t) succeeds exactly when the count of hits is positive. */
  lemma {:induction false} HitsPositive<K(!new)>(prods: seq<K>, c: nat, table: Table<K>, w: K, t: K)
    requires c <= |prods|
    ensures Hits(prods, c, table, w, t) > 0 <==> exists i :: i in prods[..c] && Key(t, i, w) in table
  {
    if c != 0 {
      var q, i := prods[..c - 1], prods[c - 1];
      assert prods[..c] == q + [i];
      HitsPositive(prods, c - 1, table, w, t);
      if exists j :: j in prods[..c] && Key(t, j, w) in table {
        var j :| j in prods[..c] && Key(t, j, w) in table;
        assert j in q || j == i;
      }
    }
  }

  lemma {:induction false} CapacityCountInProductRun<K(!new)>(prods: seq<K>, c: nat, table: Table<K>, locData: LocTable<K>, w: K, t: K, x: Constraint<K>)
    requires c <= |prods| && w in locData && x.Capacity?
    ensures multiset(ProductRun(prods, c, table, locData, w, t))[x] ==
      if CapacityOf(prods, locData, x, w, t) then Hits(prods, c, table, w, t) else 0
  {
    if c != 0 {
      CapacityCountInProductRun(prods, c - 1, table, locData, w, t, x);
    }
  }

  lemma {:induction false} CapacityCountInTimeRun<K(!new)>(prods: seq<K>, times: seq<K>, b: nat, table: Table<K>, locData: LocTable<K>, w: K, x: Constraint<K>)
    requires b <= |times| && w in locData && NoDups(times) && x.Capacity?
    ensures multiset(TimeRun(prods, times, b, table, locData, w))[x] ==
      if x.time in times[..b] && CapacityOf(prods, locData, x, w, x.time) then Hits(prods, |prods|, table, w, x.time) else 0
  {
    if b != 0 {
      var t := times[b - 1];
      assert times[..b] == times[..b - 1] + [t];
      assert t !in times[..b - 1];
      CapacityCountInTimeRun(prods, times, b - 1, table, locData, w, x);
      CapacityCountInProductRun(prods, |prods|, table, locData, w, t, x);
    }
  }

  lemma {:induction false} CapacityCountInLocationRun<K(!new)>(prods: seq<K>, times: seq<K>, locs: seq<K>, a: nat, table: Table<K>, locData: LocTable<K>, x: Constraint<K>)
    requires a <= |locs| && Covers(locData, locs) && NoDups(times) && NoDups(locs) && x.Capacity?
    ensures multiset(LocationRun(prods, times, locs, a, table, locData))[x] ==
      if x.location in locs[..a] && x.time in times && CapacityOf(prods, locData, x, x.location, x.time)
      then Hits(prods, |prods|, table, x.location, x.time) else 0
  {
    if a != 0 {
      var w := locs[a - 1];
      assert locs[..a] == locs[..a - 1] + [w];
      assert w !in locs[..a - 1];
      assert times[..|times|] == times;
      CapacityCountInLocationRun(prods, times, locs, a - 1, table, locData, x);
      CapacityCountInTimeRun(prods, times, |times|, table, locData, w, x);
    }
  }

  /**
    As written, the capacity constraint of a (w, t) of the index lists is
    appended once for every product whose (t, i, w) lookup succeeds -- never
    when none does, twice when two do -- and no other capacity constraint
    is appended.
  */
  lemma CapacityCount<K(!new)>(ix: IndexSets<K>, table: Table<K>, locData: LocTable<K>, c: Constraint<K>)
    requires Covers(locData, ix.locations) && NoDups(ix.times) && NoDups(ix.locations) && c.Capacity?
    ensures multiset(BuildConstraints(ix, table, locData))[c] ==
      if && c.location in ix.locations && c.time in ix.times
         && c.vars == CapacityVars(ix.products, c.location, c.time)
         && c.cap == locData[c.location].holdCap
      then Hits(ix.products, |ix.products|, table, c.location, c.time) else 0
  {
    assert ix.locations[..|ix.locations|] == ix.locations;
    CapacityCountInLocationRun(ix.products, ix.times, ix.locations, |ix.locations|, table, locData, c);
  }

  // ---------------------------------------------------------------------------
  // Shape of the list

  /**
    In a run of pairs every capacity constraint comes right after a balance
    constraint for the same (location, time), every balance constraint right
    before one, so there are as many of each kind.
  */
  lemma {:induction false} PairedShape<K>(cs: seq<Constraint<K>>)
    requires Paired(cs)
    ensures forall j :: 0 <= j < |cs| && cs[j].Capacity? ==> 0 < j && IsPair(cs[j - 1], cs[j])
    ensures forall j :: 0 <= j < |cs| && cs[j].Balance? ==> j + 1 < |cs| && IsPair(cs[j], cs[j + 1])
    ensures CountBalances(cs) == CountCapacities(cs)
    decreases |cs|
  {
    if cs != [] {
      var rest := cs[2..];
      PairedShape(rest);
      assert cs[1..][1..] == rest;
      forall j | 2 <= j < |cs| ensures cs[j] == rest[j - 2] { }
    }
  }

  /**
    The constraint list of one `define_constraints` call has this shape: every
    capacity constraint directly follows, and every balance constraint directly
    precedes, the other half of its (location, time) pair.
  */
  lemma CapacityFollowsBalance<K(!new)>(ix: IndexSets<K>, table: Table<K>, locData: LocTable<K>)
    requires Covers(locData, ix.locations)
    ensures var cs := BuildConstraints(ix, table, locData);
      && (forall j :: 0 <= j < |cs| && cs[j].Capacity? ==> 0 < j && IsPair(cs[j - 1], cs[j]))
      && (forall j :: 0 <= j < |cs| && cs[j].Balance? ==> j + 1 < |cs| && IsPair(cs[j], cs[j + 1]))
      && CountBalances(cs) == CountCapacities(cs)
  {
    LocationRunPaired(ix.products, ix.times, ix.locations, |ix.locations|, table, locData);
    PairedShape(BuildConstraints(ix, table, locData));
  }
}
