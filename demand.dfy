/**
  The demand aggregator: order lines are grouped on (product, time period,
  location) and their quantities summed (`groupby(...).sum()` in `__init__`).
*/
module Demand {

  /** One order line after the four used columns have been read. */
  datatype OrderRecord<K> = OrderRecord(product: K, time: K, location: K, quantity: real)

  /** A row key of the aggregated table, in the table's level order: product, time, location. */
  datatype Key<K> = Key(product: K, time: K, location: K)

  /** The aggregated demand table: a key absent from it means no recorded demand. */
  type Table<K(==)> = map<Key<K>, real>

  function KeyOf<K>(r: OrderRecord<K>): Key<K> {
    Key(r.product, r.time, r.location)
  }

  /** Reference definition of one group's total: the sum over the records that carry key `k`. */
  function GroupTotal<K(==)>(records: seq<OrderRecord<K>>, k: Key<K>): real {
    if records == [] then 0.0
    else (if KeyOf(records[0]) == k then records[0].quantity else 0.0) + GroupTotal(records[1..], k)
  }

  /** The group-by-sum; its keys are exactly the keys that occur among the records. */
  function Aggregate<K(==)>(records: seq<OrderRecord<K>>): (table: Table<K>)
    ensures table.Keys == set r | r in records :: KeyOf(r)
  {
    if records == [] then map[]
    else
      var rest := Aggregate(records[1..]);
      var k := KeyOf(records[0]);
      assert (set r | r in records :: KeyOf(r)) == {k} + (set r | r in records[1..] :: KeyOf(r)) by {
        assert records == [records[0]] + records[1..];
      }
      rest[k := records[0].quantity + (if k in rest then rest[k] else 0.0)]
  }

  /** Each entry of the aggregated table is the total quantity of the records in its group. */
  lemma {:induction false} AggregateIsGroupTotal<K>(records: seq<OrderRecord<K>>, k: Key<K>)
    ensures k in Aggregate(records) ==> Aggregate(records)[k] == GroupTotal(records, k)
    ensures k !in Aggregate(records) ==> GroupTotal(records, k) == 0.0
  {
    if records != [] {
      AggregateIsGroupTotal(records[1..], k);
    }
  }
}
