/** The adapter's entry points `get` and `put` (gun-tingo.js), over the
    read streamer and the write batcher. The database is abstract: the
    cursor a query returns is its event sequence, and a bulk execution is
    the completion its callback receives. */
module GunTingo {
  import opened Wrappers
  import opened Errors
  import Naming
  import opened ReadStream
  import opened WriteBatch

  /** The adapter's state: `this.initialized`, set by `opt`. */
  datatype Adapter = Adapter(initialized: bool)

  /** The query a `get` issues: `find({_id: id}).limit(n)` for one field,
      `find({key})` for a whole node. */
  datatype Query = ById(id: string, limit: nat) | ByKey(key: string)

  /** `get(key, field, stream)`: nothing happens before initialization; a
      truthy field reads the one document `getKeyField(key, field)`, no
      field reads every document of the node; the cursor's events are then
      streamed back. `chunk` is the chunk size the `data` handler sees. */
  method Get<D>(a: Adapter, key: string, field: Option<string>, cursor: seq<Event<D>>, chunk: Option<nat>)
    returns (query: Option<Query>, emitted: seq<Emission<D>>)
    ensures !a.initialized ==> query == None && emitted == []
    ensures a.initialized && Naming.Truthy(field) ==> query == Some(ById(Naming.KeyField(key, field), 1))
    ensures a.initialized && !Naming.Truthy(field) ==> query == Some(ByKey(key))
    ensures a.initialized ==> emitted == Fold(cursor, chunk).emitted
  {
    query, emitted := None, [];
    if a.initialized {
      if Naming.Truthy(field) {
        query := Some(ById(Naming.KeyField(key, field), 1));
      } else {
        query := Some(ByKey(key));
      }
      emitted := StreamResults(cursor, chunk);
    }
  }

  /** A field read looks up exactly the document a write of that field
      upserts. */
  lemma FieldReadFindsWrittenDocument<V>(node: Node<V>)
    requires Naming.Truthy(node.field)
    ensures UpsertOf(node).id == Naming.KeyField(node.key, node.field)
    ensures Naming.FieldOf(node.key, UpsertOf(node).id) == node.field
  {
    Naming.KeyFieldRoundTrip(node.key, node.field);
  }

  /** `put(batch, done)`: nothing happens before initialization or for an
      empty batch. Otherwise the batch is partitioned into groups keyed by
      (node key, iteration), every group is executed, and the completions,
      in whatever order they arrive, are counted; `done` is called once all
      groups have completed, with an internal error when any failed. This
      uses the corrected group key and the aggregated error of the
      findings; `PutAsWritten` is the source as written. `keys` are the
      groups' keys in execution order (`Object.keys(bulkBatch)`). */
  method Put<V>(a: Adapter, batch: seq<Node<V>>, arrivals: seq<Completion>)
    returns (keys: seq<(string, nat)>, groups: seq<seq<Upsert<V>>>, calls: seq<Signal>)
    ensures !a.initialized || batch == [] ==> keys == [] && groups == [] && calls == []
    ensures a.initialized && batch != [] ==>
              var labels := Labels(batch, PairGroupKey);
              && |groups| >= 1
              && Distributed(batch, labels, keys, groups)
              && WithinLimit(groups)
              && OneNodeEach(groups)
              && |calls| == (if |arrivals| >= |groups| then 1 else 0)
              && (|arrivals| >= |groups| ==> calls[0] == if AnyFailed(arrivals, |groups|) then Internal else Ok)
  {
    keys, groups, calls := [], [], [];
    if a.initialized && |batch| > 0 {
      var track, bulkBatch, bulkKeys := PartitionBatch(batch, PairGroupKey);
      ghost var p := PartitionOf(batch, PairGroupKey);
      assert bulkBatch == p.bulk && bulkKeys == p.order;
      PartitionDistributed(batch, PairGroupKey);
      keys := bulkKeys;
      groups := CollectGroups(bulkBatch, bulkKeys);
      assert groups == ExecutedGroups(batch, PairGroupKey);
      PairGroupsSized(batch);
      PairGroupsOneNode(batch);
      calls := BulkWrittenAggregated(|bulkKeys|, arrivals);
    }
  }

  /** `put` as written (lines 145-186): the string group key `node.key +
      iter` and the error of the last completion alone. Every record is in
      exactly one group, in batch order; the groups stay within 1000 while
      no node has 10000 records or more; `done` is called once when as many
      completions as groups have arrived, with the verdict of the last of
      them. */
  method PutAsWritten<V>(a: Adapter, batch: seq<Node<V>>, arrivals: seq<Completion>)
    returns (keys: seq<string>, groups: seq<seq<Upsert<V>>>, calls: seq<Signal>)
    ensures !a.initialized || batch == [] ==> keys == [] && groups == [] && calls == []
    ensures a.initialized && batch != [] ==>
              var labels := Labels(batch, StringGroupKey);
              && |groups| >= 1
              && Distributed(batch, labels, keys, groups)
              && (NodesUnder10000(batch) ==> WithinLimit(groups))
              && |calls| == (if |arrivals| >= |groups| then 1 else 0)
              && (|arrivals| >= |groups| ==>
                    calls[0] == if Failed(arrivals[|groups| - 1]) then Internal else Ok)
  {
    keys, groups, calls := [], [], [];
    if a.initialized && |batch| > 0 {
      var track, bulkBatch, bulkKeys := PartitionBatch(batch, StringGroupKey);
      ghost var p := PartitionOf(batch, StringGroupKey);
      assert bulkBatch == p.bulk && bulkKeys == p.order;
      PartitionDistributed(batch, StringGroupKey);
      keys := bulkKeys;
      groups := CollectGroups(bulkBatch, bulkKeys);
      assert groups == ExecutedGroups(batch, StringGroupKey);
      StringGroupsSized(batch);
      calls := BulkWritten(|bulkKeys|, arrivals);
    }
  }
}
