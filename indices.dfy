/**
  The index deriver (`define_indices`): the distinct product, time and
  location ids, each listed in the order of first occurrence among the rows
  of the aggregated table.
*/
module Indices {
  import opened Seqs
  import opened Demand

  /** The three index lists `prod_id`, `time_id` and `loc_id`. */
  datatype IndexSets<K> = IndexSets(products: seq<K>, times: seq<K>, locations: seq<K>)

  /** `unique()`: the distinct elements of `s`, kept at their first occurrence. */
  function Unique<K(==,!new)>(s: seq<K>): (r: seq<K>)
    ensures NoDups(r)
    ensures forall x :: x in r <==> x in s
  {
    if s == [] then []
    else
      var r := Unique(s[..|s| - 1]);
      var x := s[|s| - 1];
      assert s == s[..|s| - 1] + [x];
      if x in r then r else (NoDupsAppend(r, [x]); r + [x])
  }

  /** Appending one element to the input appends it to the result unless it was already seen. */
  lemma UniqueSnoc<K(!new)>(s: seq<K>, x: K)
    ensures Unique(s + [x]) == if x in s then Unique(s) else Unique(s) + [x]
  {
  }

  /** Position of the first occurrence of `x` in `s`. */
  function FirstIndex<K(==)>(s: seq<K>, x: K): (n: nat)
    requires x in s
    ensures n < |s| && s[n] == x && x !in s[..n]
  {
    if s[0] == x then 0 else 1 + FirstIndex(s[1..], x)
  }

  lemma {:induction false} FirstIndexOfPrefix<K>(s: seq<K>, y: K, x: K)
    requires y in s
    ensures FirstIndex(s + [x], y) == FirstIndex(s, y)
  {
    if s[0] != y {
      assert (s + [x])[1..] == s[1..] + [x];
      FirstIndexOfPrefix(s[1..], y, x);
    }
  }

  /**
    `Unique` lists values in the order in which they are first seen: whatever
    comes earlier in `Unique(s)` occurs earlier in `s`.
  */
  lemma {:induction false} UniqueKeepsFirstSeenOrder<K(!new)>(s: seq<K>)
    ensures forall a, b :: 0 <= a < b < |Unique(s)| ==>
      FirstIndex(s, Unique(s)[a]) < FirstIndex(s, Unique(s)[b])
  {
    if s != [] {
      var p, x := s[..|s| - 1], s[|s| - 1];
      assert s == p + [x];
      UniqueKeepsFirstSeenOrder(p);
      var r := Unique(p);
      forall y | y in r ensures FirstIndex(s, y) == FirstIndex(p, y) {
        FirstIndexOfPrefix(p, y, x);
      }
      if x !in r {
        assert x !in p;
        assert FirstIndex(s, x) == |p|;
      }
    }
  }

  function ProductLevel<K>(rows: seq<Key<K>>): seq<K> {
    seq(|rows|, j requires 0 <= j < |rows| => rows[j].product)
  }

  function TimeLevel<K>(rows: seq<Key<K>>): seq<K> {
    seq(|rows|, j requires 0 <= j < |rows| => rows[j].time)
  }

  function LocationLevel<K>(rows: seq<Key<K>>): seq<K> {
    seq(|rows|, j requires 0 <= j < |rows| => rows[j].location)
  }

  /**
    `define_indices`: each list has no repeats and holds exactly the values
    found in its position of some row key (sound and tight).
  */
  function DeriveIndices<K(==,!new)>(rows: seq<Key<K>>): (ix: IndexSets<K>)
    ensures NoDups(ix.products) && NoDups(ix.times) && NoDups(ix.locations)
    ensures forall i :: i in ix.products <==> exists k :: k in rows && k.product == i
    ensures forall t :: t in ix.times <==> exists k :: k in rows && k.time == t
    ensures forall w :: w in ix.locations <==> exists k :: k in rows && k.location == w
  {
    var ps, ts, ls := ProductLevel(rows), TimeLevel(rows), LocationLevel(rows);
    assert forall j :: 0 <= j < |rows| ==> ps[j] == rows[j].product && ts[j] == rows[j].time && ls[j] == rows[j].location;
    IndexSets(Unique(ps), Unique(ts), Unique(ls))
  }
}
