/**
  Two places where `define_constraints` as written departs from what it is
  evidently meant to do, each shown on concrete order records with integer
  product, period and location identifiers, next to what the corrected
  definition of module `Corrected` produces on the same input.
*/
module Findings {
  import opened Demand
  import opened Indices
  import opened Lp
  import opened Formulation
  import Constraints
  import Corrected

  /** One location, 9, with holding cost 1 and capacity 50. */
  function Site(): LocTable<int> {
    map[9 := LocParams(1.0, 50.0)]
  }

  /**
    Key order. The aggregated table is keyed (product, time, location) but
    the lookup asks for (t, i, w). A single order of 30 units of product 1
    in period 2 at location 9 is never found, so the written code appends no
    constraint at all and the demand is lost; the corrected definition
    appends its balance constraint and the capacity constraint of (9, 2).
  */
  lemma KeyOrderLosesDemand()
    ensures var records := [OrderRecord(1, 2, 9, 30.0)];
      var rows := [Key(1, 2, 9)];
      var ix := DeriveIndices(rows);
      && Aggregate(records) == map[Key(1, 2, 9) := 30.0]
      && ix == IndexSets([1], [2], [9])
      && Constraints.BuildConstraints(ix, Aggregate(records), Site()) == []
      && Corrected.BuildConstraints(ix, Aggregate(records), Site())
         == [Balance(VarIndex(1, 9, 2), 30.0), Capacity(9, 2, [VarIndex(1, 9, 2)], 50.0)]
  {
    var records := [OrderRecord(1, 2, 9, 30.0)];
    var table := map[Key(1, 2, 9) := 30.0];
    assert records[1..] == [];
    assert Aggregate(records) == table;
    assert [1][..0] == [] && [2][..0] == [] && [9][..0] == [];
    assert DeriveIndices([Key(1, 2, 9)]) == IndexSets([1], [2], [9]);
    var ix := IndexSets([1], [2], [9]);
    assert Key(2, 1, 9) !in table;
    assert Constraints.ProductRun([1], 1, table, Site(), 9, 2) == [];
    assert Constraints.TimeRun([1], [2], 1, table, Site(), 9) == [];
    assert Corrected.ProductRun([1], 1, table, 9, 2) == [Balance(VarIndex(1, 9, 2), 30.0)];
    assert CapacityVars([1], 9, 2) == [VarIndex(1, 9, 2)];
  }

  /** Four orders at location 9: products 1 and 2, each in periods 1 and 2. */
  function Orders(): seq<OrderRecord<int>> {
    [OrderRecord(1, 1, 9, 10.0), OrderRecord(1, 2, 9, 20.0), OrderRecord(2, 1, 9, 30.0), OrderRecord(2, 2, 9, 40.0)]
  }

  function OrderTable(): Table<int> {
    map[Key(2, 2, 9) := 40.0, Key(2, 1, 9) := 30.0, Key(1, 2, 9) := 20.0, Key(1, 1, 9) := 10.0]
  }

  /** Aggregating the four orders gives one row per order. */
  lemma OrderTableIsAggregate()
    ensures Aggregate(Orders()) == OrderTable()
  {
  }

  /** Deduplicating `a, a, b, b` with `a != b` keeps `a, b`. */
  lemma UniquePairs(a: int, b: int)
    requires a != b
    ensures Unique([a, a, b, b]) == [a, b]
  {
    var s1: seq<int> := [a];
    assert Unique(s1) == [a] by { UniqueSnoc([], a); assert [] + [a] == s1; }
    var s2 := s1 + [a];
    assert Unique(s2) == [a] by { UniqueSnoc(s1, a); }
    var s3 := s2 + [b];
    assert Unique(s3) == [a, b] by { UniqueSnoc(s2, b); assert b !in s2; }
    assert Unique(s3 + [b]) == [a, b] by { UniqueSnoc(s3, b); }
    assert s3 + [b] == [a, a, b, b];
  }

  /** Deduplicating `a, b, a, b` with `a != b` keeps `a, b`. */
  lemma UniqueAlternating(a: int, b: int)
    requires a != b
    ensures Unique([a, b, a, b]) == [a, b]
  {
    var s1: seq<int> := [a];
    assert Unique(s1) == [a] by { UniqueSnoc([], a); assert [] + [a] == s1; }
    var s2 := s1 + [b];
    assert Unique(s2) == [a, b] by { UniqueSnoc(s1, b); assert b !in s1; }
    var s3 := s2 + [a];
    assert Unique(s3) == [a, b] by { UniqueSnoc(s2, a); }
    assert Unique(s3 + [b]) == [a, b] by { UniqueSnoc(s3, b); }
    assert s3 + [b] == [a, b, a, b];
  }

  /** Deduplicating `a, a, a, a` keeps `a`. */
  lemma UniqueRepeated(a: int)
    ensures Unique([a, a, a, a]) == [a]
  {
    var s1: seq<int> := [a];
    assert Unique(s1) == [a] by { UniqueSnoc([], a); assert [] + [a] == s1; }
    var s2 := s1 + [a];
    assert Unique(s2) == [a] by { UniqueSnoc(s1, a); }
    var s3 := s2 + [a];
    assert Unique(s3) == [a] by { UniqueSnoc(s2, a); }
    assert Unique(s3 + [a]) == [a] by { UniqueSnoc(s3, a); }
    assert s3 + [a] == [a, a, a, a];
  }

  /** First-occurrence deduplication of the four rows' levels. */
  lemma OrderIndices()
    ensures DeriveIndices([Key(1, 1, 9), Key(1, 2, 9), Key(2, 1, 9), Key(2, 2, 9)]) == IndexSets([1, 2], [1, 2], [9])
  {
    var rows := [Key(1, 1, 9), Key(1, 2, 9), Key(2, 1, 9), Key(2, 2, 9)];
    assert ProductLevel(rows) == [1, 1, 2, 2];
    assert TimeLevel(rows) == [1, 2, 1, 2];
    assert LocationLevel(rows) == [9, 9, 9, 9];
    UniquePairs(1, 2);
    UniqueAlternating(1, 2);
    UniqueRepeated(9);
  }

  /**
    Key order, second face. When the transposed key happens to exist, the
    written code finds the wrong demand: product 1 in period 2 is balanced
    against the 30 units of product 2 in period 1 instead of its own 20.
  */
  lemma KeyOrderSwapsDemand()
    ensures var ix := IndexSets([1, 2], [1, 2], [9]);
      && Balance(VarIndex(1, 9, 2), 30.0) in Constraints.BuildConstraints(ix, OrderTable(), Site())
      && Balance(VarIndex(1, 9, 2), 20.0) !in Constraints.BuildConstraints(ix, OrderTable(), Site())
  {
    var ix := IndexSets([1, 2], [1, 2], [9]);
    Constraints.BalanceIff(ix, OrderTable(), Site(), VarIndex(1, 9, 2), 30.0);
    Constraints.BalanceIff(ix, OrderTable(), Site(), VarIndex(1, 9, 2), 20.0);
  }

  /** On the same orders the corrected definition balances product 1 in period 2 against its own 20 units. */
  lemma CorrectedKeepsDemand()
    ensures Balance(VarIndex(1, 9, 2), 20.0) in Corrected.BuildConstraints(IndexSets([1, 2], [1, 2], [9]), OrderTable(), Site())
    ensures Balance(VarIndex(1, 9, 2), 30.0) !in Corrected.BuildConstraints(IndexSets([1, 2], [1, 2], [9]), OrderTable(), Site())
  {
    var ix := IndexSets([1, 2], [1, 2], [9]);
    Corrected.BalanceIff(ix, OrderTable(), Site(), VarIndex(1, 9, 2), 20.0);
    Corrected.BalanceIff(ix, OrderTable(), Site(), VarIndex(1, 9, 2), 30.0);
  }

  /** The capacity constraint of location 9 in period 1 over products 1 and 2. */
  function CapacityNineOne(): Constraint<int> {
    Capacity(9, 1, [VarIndex(1, 9, 1), VarIndex(2, 9, 1)], 50.0)
  }

  /** The variables the capacity constraint of (9, 1) sums. */
  lemma VarsNineOne()
    ensures CapacityVars([1, 2], 9, 1) == [VarIndex(1, 9, 1), VarIndex(2, 9, 1)]
  {
  }

  /** As written, period 1 at location 9 appends the capacity constraint once per product. */
  lemma AsWrittenPeriodOne()
    ensures multiset(Constraints.ProductRun([1, 2], 2, OrderTable(), Site(), 9, 1))[CapacityNineOne()] == 2
  {
    var P, table, cap := [1, 2], OrderTable(), CapacityNineOne();
    VarsNineOne();
    assert Constraints.Emitted(P, table, Site(), 1, 9, 1) == [Balance(VarIndex(1, 9, 1), 10.0), cap];
    assert Constraints.Emitted(P, table, Site(), 2, 9, 1) == [Balance(VarIndex(2, 9, 1), 20.0), cap];
  }

  /**
    Capacity placement. The capacity constraint of (w, t) is appended inside
    the product loop, once per product whose lookup succeeds, although it
    sums over every product itself. As written, the lookups at (9, 1) use
    the keys (1, 1, 9) and (1, 2, 9); both are among the four orders, so the
    written code appends the same capacity constraint twice.
  */
  lemma CapacityRepeatedPerProduct()
    ensures multiset(Constraints.BuildConstraints(IndexSets([1, 2], [1, 2], [9]), OrderTable(), Site()))[CapacityNineOne()] == 2
  {
    var P, T, table := [1, 2], [1, 2], OrderTable();
    var cap := CapacityNineOne();
    AsWrittenPeriodOne();
    Constraints.CapacityInProductRun(P, 2, table, Site(), 9, 2, cap);
    assert multiset(Constraints.TimeRun(P, T, 2, table, Site(), 9))[cap] == 2;
  }

  /** On the same orders the corrected definition appends it once. */
  lemma CorrectedCapacityOnce()
    ensures multiset(Corrected.BuildConstraints(IndexSets([1, 2], [1, 2], [9]), OrderTable(), Site()))[CapacityNineOne()] == 1
  {
    VarsNineOne();
    Corrected.CapacityOncePerPeriod(IndexSets([1, 2], [1, 2], [9]), OrderTable(), Site(), CapacityNineOne());
  }

  /**
    What the repeat counts: successful transposed lookups, not products with
    demand at (w, t). With only the orders (1, 1, 9) and (2, 1, 9), both
    products have demand at (9, 1), but of the lookups (1, 1, 9) and
    (1, 2, 9) only the first succeeds, so the capacity constraint of (9, 1)
    is appended once.
  */
  lemma CapacityCountsTransposedHits()
    ensures var table := map[Key(2, 1, 9) := 30.0, Key(1, 1, 9) := 10.0];
      multiset(Constraints.BuildConstraints(IndexSets([1, 2], [1], [9]), table, Site()))[CapacityNineOne()] == 1
  {
    var table := map[Key(2, 1, 9) := 30.0, Key(1, 1, 9) := 10.0];
    var ix := IndexSets([1, 2], [1], [9]);
    VarsNineOne();
    assert Key(1, 1, 9) in table && Key(1, 2, 9) !in table;
    assert Constraints.Hits([1, 2], 2, table, 9, 1) == 1;
    Constraints.CapacityCount(ix, table, Site(), CapacityNineOne());
  }
}
