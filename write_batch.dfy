/** The write batcher (`put` in gun-tingo.js): the partition of a batch into
    bulk groups of at most 1000 upserts per node key, and the completion
    counter that calls `done` once every group has been written. */
module WriteBatch {
  import opened Wrappers
  import opened Errors
  import Naming

  /** The size at which a group stops taking records of its key. */
  const BulkLimit: nat := 1000

  /** A node record of the engine's batch. */
  datatype Node<V> = Node(key: string, field: Option<string>, value: V)

  /** `find({_id: id}).upsert().replaceOne(doc)` queued on a bulk operation. */
  datatype Upsert<V> = Upsert(id: string, doc: Node<V>)

  /** The upsert a record queues: its document `_id` and the record. */
  function UpsertOf<V>(node: Node<V>): Upsert<V> {
    Upsert(Naming.KeyField(node.key, node.field), node)
  }

  // ---------------------------------------------------------------------
  // Group keys

  function DigitChar(d: nat): (c: char)
    requires d < 10
    ensures '0' <= c <= '9'
  {
    ('0' as int + d) as char
  }

  /** JavaScript's `String(n)` for a non-negative integer. */
  function DecimalString(n: nat): (s: string)
    ensures |s| >= 1
    decreases n
  {
    if n < 10 then [DigitChar(n)] else DecimalString(n / 10) + [DigitChar(n % 10)]
  }

  lemma {:induction false} DecimalStringInjective(a: nat, b: nat)
    requires DecimalString(a) == DecimalString(b)
    ensures a == b
    decreases a
  {
    if a >= 10 && b >= 10 {
      var sa, sb := DecimalString(a), DecimalString(b);
      assert sa[|sa| - 1] == sb[|sb| - 1];
      assert a % 10 == b % 10;
      assert sa[..|sa| - 1] == DecimalString(a / 10);
      assert sb[..|sb| - 1] == DecimalString(b / 10);
      DecimalStringInjective(a / 10, b / 10);
    }
  }

  /** The source's group key `node.key + iter`. */
  function StringGroupKey(key: string, iter: nat): string {
    key + DecimalString(iter)
  }

  /** A group key that keeps the node key and the iteration apart. */
  function PairGroupKey(key: string, iter: nat): (string, nat) {
    (key, iter)
  }

  /** `gk` never sends two different (key, iteration) pairs of `keys` to
      the same group. */
  ghost predicate InjectiveOn<G>(gk: (string, nat) -> G, keys: set<string>) {
    forall k1: string, i1: nat, k2: string, i2: nat :: k1 in keys && k2 in keys && gk(k1, i1) == gk(k2, i2) ==> k1 == k2 && i1 == i2
  }

  lemma PairGroupKeyInjective(keys: set<string>)
    ensures InjectiveOn(PairGroupKey, keys)
  {
  }

  /** For one node key, the string key is injective in the iteration. */
  lemma StringGroupKeyInjectiveOnOneKey(k: string)
    ensures InjectiveOn(StringGroupKey, {k})
  {
    forall i1, i2 | StringGroupKey(k, i1) == StringGroupKey(k, i2)
      ensures i1 == i2
    {
      assert DecimalString(i1) == StringGroupKey(k, i1)[|k|..];
      assert DecimalString(i2) == StringGroupKey(k, i2)[|k|..];
      DecimalStringInjective(i1, i2);
    }
  }

  /** But across node keys the string key collides: the 11th group of node
      "a" and the 1st group of node "a1" are both "a11". */
  lemma StringGroupKeysCollide()
    ensures StringGroupKey("a", 11) == StringGroupKey("a1", 1) == "a11"
    ensures !InjectiveOn(StringGroupKey, {"a", "a1"})
  {
    assert DecimalString(1) == "1";
    assert DecimalString(11) == "11";
  }

  /** `gk` never sends two different (key, iteration) pairs of `keys` with
      iterations 1 to `m` to the same group (iterations start at 1). */
  ghost predicate InjectiveUpTo<G>(gk: (string, nat) -> G, keys: set<string>, m: nat) {
    forall k1: string, i1: nat, k2: string, i2: nat ::
      k1 in keys && k2 in keys && 1 <= i1 <= m && 1 <= i2 <= m && gk(k1, i1) == gk(k2, i2) ==> k1 == k2 && i1 == i2
  }

  lemma InjectiveOnUpTo<G>(gk: (string, nat) -> G, keys: set<string>, m: nat)
    requires InjectiveOn(gk, keys)
    ensures InjectiveUpTo(gk, keys, m)
  {
  }

  /** Up to iteration 9 the suffix is one digit, and "10" could only be
      another key's suffix "0", an iteration that never happens; so up to
      iteration 10 the string key is injective across all node keys. */
  lemma StringGroupKeyInjectiveUpToTen(keys: set<string>)
    ensures InjectiveUpTo(StringGroupKey, keys, 10)
  {
    forall k1: string, i1: nat, k2: string, i2: nat | 1 <= i1 <= 10 && 1 <= i2 <= 10 && StringGroupKey(k1, i1) == StringGroupKey(k2, i2)
      ensures k1 == k2 && i1 == i2
    {
      StringGroupKeySplit(k1, i1);
      StringGroupKeySplit(k2, i2);
      assert DigitChar(i1 % 10) == DigitChar(i2 % 10);
      assert i1 == i2;
    }
  }

  /** For iterations 1 to 10 the key ends in the iteration's last digit
      and starts with the node key. */
  lemma StringGroupKeySplit(k: string, i: nat)
    requires 1 <= i <= 10
    ensures var s := StringGroupKey(k, i);
            && |s| == |k| + |DecimalString(i)|
            && s[|s| - 1] == DigitChar(i % 10)
            && s[..|k|] == k
  {
    if i == 10 {
      assert DecimalString(10) == [DigitChar(1), DigitChar(0)];
    }
    var s := StringGroupKey(k, i);
    assert s[..|k|] == k;
  }

  // ---------------------------------------------------------------------
  // Partition (the `batch.forEach` loop)

  /** The loop's dictionaries: `track` (node key to iteration), `bulkBatch`
      (group key to its upserts) and the order in which groups were created
      (`Object.keys(bulkBatch)`). */
  datatype Partition<V, G> = Partition(track: map<string, nat>, bulk: map<G, seq<Upsert<V>>>, order: seq<G>)

  /** `track[key] || 1`. */
  function Iter(track: map<string, nat>, key: string): (i: nat)
    ensures i >= 1
  {
    if key in track && track[key] != 0 then track[key] else 1
  }

  /** The upserts of group `g`, none if it does not exist yet. */
  function Lookup<V, G>(bulk: map<G, seq<Upsert<V>>>, g: G): seq<Upsert<V>> {
    if g in bulk then bulk[g] else []
  }

  /** The group the next record of `key` goes to. */
  function GroupOf<G>(track: map<string, nat>, key: string, gk: (string, nat) -> G): G {
    gk(key, Iter(track, key))
  }

  /** One iteration of the loop. */
  function PartitionStep<V, G>(p: Partition<V, G>, node: Node<V>, gk: (string, nat) -> G): Partition<V, G> {
    var iter := Iter(p.track, node.key);
    var g := gk(node.key, iter);
    var group := Lookup(p.bulk, g) + [UpsertOf(node)];
    Partition(p.track[node.key := if |group| == BulkLimit then iter + 1 else iter],
              p.bulk[g := group],
              if g in p.bulk then p.order else p.order + [g])
  }

  /** The loop run over the batch in order. */
  function PartitionOf<V, G>(batch: seq<Node<V>>, gk: (string, nat) -> G): Partition<V, G>
    decreases |batch|
  {
    if batch == [] then Partition(map[], map[], [])
    else PartitionStep(PartitionOf(batch[..|batch| - 1], gk), batch[|batch| - 1], gk)
  }

  /** The group each record of the batch was assigned to, in batch order. */
  function Labels<V, G(==)>(batch: seq<Node<V>>, gk: (string, nat) -> G): (labels: seq<G>)
    ensures |labels| == |batch|
    decreases |batch|
  {
    if batch == [] then []
    else
      var prefix := batch[..|batch| - 1];
      Labels(prefix, gk) + [GroupOf(PartitionOf(prefix, gk).track, batch[|batch| - 1].key, gk)]
  }

  /** The upserts of the records labelled `g`, in batch order. */
  function Assigned<V, G(==)>(batch: seq<Node<V>>, labels: seq<G>, g: G): seq<Upsert<V>>
    requires |labels| == |batch|
    decreases |batch|
  {
    if batch == [] then []
    else
      var n := |batch| - 1;
      Assigned(batch[..n], labels[..n], g) + (if labels[n] == g then [UpsertOf(batch[n])] else [])
  }

  /** The number of upserts over the groups of `order`. */
  function Total<V, G>(bulk: map<G, seq<Upsert<V>>>, order: seq<G>): nat
    decreases |order|
  {
    if order == [] then 0 else Total(bulk, order[..|order| - 1]) + |Lookup(bulk, order[|order| - 1])|
  }

  /** The number of records of node `key`. */
  function Count<V>(batch: seq<Node<V>>, key: string): nat
    decreases |batch|
  {
    if batch == [] then 0
    else Count(batch[..|batch| - 1], key) + (if batch[|batch| - 1].key == key then 1 else 0)
  }

  /** The node keys of the batch. */
  function KeysOf<V>(batch: seq<Node<V>>): set<string> {
    set i | 0 <= i < |batch| :: batch[i].key
  }

  /** The `forEach` callback for one node: read the node's iteration (1 when
      unset), append its upsert to that iteration's group, creating the
      group if needed, and move the node to the next iteration once the
      group is full. */
  method PlaceNode<V, G>(track: map<string, nat>, bulkBatch: map<G, seq<Upsert<V>>>, bulkKeys: seq<G>,
                         node: Node<V>, gk: (string, nat) -> G)
    returns (track': map<string, nat>, bulkBatch': map<G, seq<Upsert<V>>>, bulkKeys': seq<G>)
    ensures Partition(track', bulkBatch', bulkKeys') == PartitionStep(Partition(track, bulkBatch, bulkKeys), node, gk)
  {
    var iter := if node.key in track && track[node.key] != 0 then track[node.key] else 1;
    track' := track[node.key := iter];
    var bulkKey := gk(node.key, iter);
    var bulk := if bulkKey in bulkBatch then bulkBatch[bulkKey] else [];
    bulkKeys' := bulkKeys;
    if bulkKey !in bulkBatch {
      bulkKeys' := bulkKeys + [bulkKey];
    }
    bulk := bulk + [UpsertOf(node)];
    bulkBatch' := bulkBatch[bulkKey := bulk];
    if |bulk| == BulkLimit {
      track' := track'[node.key := iter + 1];
    }
  }

  /** `batch.forEach(node => …)` over `track` and `bulkBatch`. `gk` is the
      group key; the source's is `StringGroupKey`. */
  method PartitionBatch<V, G>(batch: seq<Node<V>>, gk: (string, nat) -> G)
    returns (track: map<string, nat>, bulkBatch: map<G, seq<Upsert<V>>>, bulkKeys: seq<G>)
    ensures Partition(track, bulkBatch, bulkKeys) == PartitionOf(batch, gk)
  {
    track, bulkBatch, bulkKeys := map[], map[], [];
    var i := 0;
    while i < |batch|
      invariant 0 <= i <= |batch|
      invariant Partition(track, bulkBatch, bulkKeys) == PartitionOf(batch[..i], gk)
    {
      track, bulkBatch, bulkKeys := PlaceNode(track, bulkBatch, bulkKeys, batch[i], gk);
      PartitionPrefixStep(batch, i, gk);
      i := i + 1;
    }
    assert batch[..|batch|] == batch;
  }

  lemma PartitionPrefixStep<V, G>(batch: seq<Node<V>>, i: nat, gk: (string, nat) -> G)
    requires i < |batch|
    ensures PartitionOf(batch[..i + 1], gk) == PartitionStep(PartitionOf(batch[..i], gk), batch[i], gk)
  {
    var s := batch[..i + 1];
    assert s[..|s| - 1] == batch[..i];
    assert s[|s| - 1] == batch[i];
  }

  // ---------------------------------------------------------------------
  // Properties that hold for every group key

  lemma PartitionSnoc<V, G>(batch: seq<Node<V>>, node: Node<V>, gk: (string, nat) -> G)
    ensures PartitionOf(batch + [node], gk) == PartitionStep(PartitionOf(batch, gk), node, gk)
  {
    assert (batch + [node])[..|batch|] == batch;
  }

  lemma LabelsSnoc<V, G>(batch: seq<Node<V>>, node: Node<V>, gk: (string, nat) -> G)
    ensures Labels(batch + [node], gk) == Labels(batch, gk) + [GroupOf(PartitionOf(batch, gk).track, node.key, gk)]
  {
    assert (batch + [node])[..|batch|] == batch;
  }

  lemma CountSnoc<V>(batch: seq<Node<V>>, node: Node<V>)
    ensures Count(batch + [node], node.key) == Count(batch, node.key) + 1
    ensures forall k :: k != node.key ==> Count(batch + [node], k) == Count(batch, k)
  {
    assert (batch + [node])[..|batch|] == batch;
  }

  /** Each group holds exactly the records assigned to it, as upserts with
      id `getKeyField(node.key, node.field)`, in batch order. */
  lemma {:induction false} GroupsAreAssignedRecords<V, G>(batch: seq<Node<V>>, gk: (string, nat) -> G, g: G)
    ensures Lookup(PartitionOf(batch, gk).bulk, g) == Assigned(batch, Labels(batch, gk), g)
    decreases |batch|
  {
    if batch != [] {
      var n := |batch| - 1;
      assert batch == batch[..n] + [batch[n]];
      PartitionSnoc(batch[..n], batch[n], gk);
      LabelsSnoc(batch[..n], batch[n], gk);
      GroupsAreAssignedRecords(batch[..n], gk, g);
      assert Labels(batch, gk)[..n] == Labels(batch[..n], gk);
    }
  }

  /** The group every record was assigned to exists. */
  lemma {:induction false} LabelsAreGroups<V, G>(batch: seq<Node<V>>, gk: (string, nat) -> G)
    ensures forall j :: 0 <= j < |batch| ==> Labels(batch, gk)[j] in PartitionOf(batch, gk).bulk
    decreases |batch|
  {
    if batch != [] {
      var n := |batch| - 1;
      var prefix := batch[..n];
      assert batch == prefix + [batch[n]];
      PartitionSnoc(prefix, batch[n], gk);
      LabelsSnoc(prefix, batch[n], gk);
      LabelsAreGroups(prefix, gk);
      forall j | 0 <= j < n ensures Labels(batch, gk)[j] in PartitionOf(batch, gk).bulk {
        assert Labels(batch, gk)[j] == Labels(prefix, gk)[j];
      }
    }
  }

  /** `Object.keys(bulkBatch)` lists every group once. */
  lemma {:induction false} OrderListsGroupsOnce<V, G>(batch: seq<Node<V>>, gk: (string, nat) -> G)
    ensures forall g :: g in PartitionOf(batch, gk).bulk <==> g in PartitionOf(batch, gk).order
    ensures var order := PartitionOf(batch, gk).order;
            forall i, j :: 0 <= i < j < |order| ==> order[i] != order[j]
    decreases |batch|
  {
    if batch != [] {
      var n := |batch| - 1;
      assert batch == batch[..n] + [batch[n]];
      PartitionSnoc(batch[..n], batch[n], gk);
      OrderListsGroupsOnce(batch[..n], gk);
      var p := PartitionOf(batch[..n], gk);
      var g := GroupOf(p.track, batch[n].key, gk);
      if g !in p.bulk {
        assert g !in p.order;
        assert PartitionOf(batch, gk).order == p.order + [g];
      }
    }
  }

  lemma {:induction false} TotalFrame<V, G>(bulk: map<G, seq<Upsert<V>>>, order: seq<G>, g: G, s: seq<Upsert<V>>)
    requires g !in order
    ensures Total(bulk[g := s], order) == Total(bulk, order)
    decreases |order|
  {
    if order != [] {
      TotalFrame(bulk, order[..|order| - 1], g, s);
    }
  }

  lemma {:induction false} TotalGrow<V, G>(bulk: map<G, seq<Upsert<V>>>, order: seq<G>, g: G, u: Upsert<V>)
    requires g in order
    requires forall i, j :: 0 <= i < j < |order| ==> order[i] != order[j]
    ensures Total(bulk[g := Lookup(bulk, g) + [u]], order) == Total(bulk, order) + 1
    decreases |order|
  {
    var n := |order| - 1;
    if order[n] == g {
      assert g !in order[..n];
      TotalFrame(bulk, order[..n], g, Lookup(bulk, g) + [u]);
    } else {
      assert g in order[..n];
      TotalGrow(bulk, order[..n], g, u);
    }
  }

  lemma TotalSnoc<V, G>(bulk: map<G, seq<Upsert<V>>>, order: seq<G>, g: G)
    ensures Total(bulk, order + [g]) == Total(bulk, order) + |Lookup(bulk, g)|
  {
    assert (order + [g])[..|order|] == order;
  }

  /** Conservation: the groups hold as many upserts as the batch has
      records. */
  lemma {:induction false} TotalIsBatchLength<V, G>(batch: seq<Node<V>>, gk: (string, nat) -> G)
    ensures Total(PartitionOf(batch, gk).bulk, PartitionOf(batch, gk).order) == |batch|
    decreases |batch|
  {
    if batch != [] {
      var n := |batch| - 1;
      var node := batch[n];
      assert batch == batch[..n] + [node];
      PartitionSnoc(batch[..n], node, gk);
      TotalIsBatchLength(batch[..n], gk);
      OrderListsGroupsOnce(batch[..n], gk);
      var p := PartitionOf(batch[..n], gk);
      var g := GroupOf(p.track, node.key, gk);
      if g in p.bulk {
        TotalGrow(p.bulk, p.order, g, UpsertOf(node));
      } else {
        var q := p.bulk[g := Lookup(p.bulk, g) + [UpsertOf(node)]];
        assert g !in p.order;
        TotalFrame(p.bulk, p.order, g, Lookup(p.bulk, g) + [UpsertOf(node)]);
        TotalSnoc(q, p.order, g);
        assert |Lookup(q, g)| == 1;
      }
    }
  }

  /** Every group that exists holds at least one upsert. */
  lemma {:induction false} GroupsNonEmpty<V, G>(batch: seq<Node<V>>, gk: (string, nat) -> G)
    ensures forall g :: g in PartitionOf(batch, gk).bulk ==> |PartitionOf(batch, gk).bulk[g]| >= 1
    decreases |batch|
  {
    if batch != [] {
      var n := |batch| - 1;
      assert batch == batch[..n] + [batch[n]];
      PartitionSnoc(batch[..n], batch[n], gk);
      GroupsNonEmpty(batch[..n], gk);
    }
  }

  // ---------------------------------------------------------------------
  // Properties that need a group key injective on the iterations reached

  /** No group is over the limit. */
  ghost predicate Bounded<V, G>(p: Partition<V, G>) {
    forall g :: g in p.bulk ==> |p.bulk[g]| <= BulkLimit
  }

  /** No node key of `keys` is past iteration `m`. */
  ghost predicate IterWithin<V, G>(p: Partition<V, G>, keys: set<string>, m: nat) {
    forall k :: k in keys ==> Iter(p.track, k) <= m
  }

  /** The groups of a node key up to iteration `m` are its iterations
      1 .. Iter. */
  ghost predicate InRange<V, G>(p: Partition<V, G>, gk: (string, nat) -> G, keys: set<string>, m: nat) {
    forall k: string, i: nat :: k in keys && 1 <= i <= m && gk(k, i) in p.bulk ==> i <= Iter(p.track, k)
  }

  /** The groups of a node key before its current one are full. */
  ghost predicate FullBefore<V, G>(p: Partition<V, G>, gk: (string, nat) -> G, keys: set<string>) {
    forall k: string, i: nat :: k in keys && 1 <= i < Iter(p.track, k) ==>
      gk(k, i) in p.bulk && |p.bulk[gk(k, i)]| == BulkLimit
  }

  /** The current group of every node key has room. */
  ghost predicate CurrentOpen<V, G>(p: Partition<V, G>, gk: (string, nat) -> G, keys: set<string>) {
    forall k :: k in keys ==> |Lookup(p.bulk, gk(k, Iter(p.track, k)))| < BulkLimit
  }

  /** The records of a node key fill its earlier groups and the rest are in
      its current one. */
  ghost predicate Counted<V, G>(p: Partition<V, G>, gk: (string, nat) -> G, keys: set<string>, batch: seq<Node<V>>) {
    forall k :: k in keys ==>
      Count(batch, k) == BulkLimit * (Iter(p.track, k) - 1) + |Lookup(p.bulk, gk(k, Iter(p.track, k)))|
  }

  /** The partition invariant for the node keys `keys`, up to iteration `m`. */
  ghost predicate Tracked<V, G>(p: Partition<V, G>, gk: (string, nat) -> G, keys: set<string>, m: nat, batch: seq<Node<V>>) {
    && Bounded(p) && IterWithin(p, keys, m) && InRange(p, gk, keys, m)
    && FullBefore(p, gk, keys) && CurrentOpen(p, gk, keys) && Counted(p, gk, keys, batch)
  }

  /** What one step changes. */
  lemma StepFacts<V, G>(p: Partition<V, G>, node: Node<V>, gk: (string, nat) -> G)
    ensures var q := PartitionStep(p, node, gk);
            var iter := Iter(p.track, node.key);
            var g := gk(node.key, iter);
            var len := |Lookup(p.bulk, g)| + 1;
            && q.bulk == p.bulk[g := Lookup(p.bulk, g) + [UpsertOf(node)]]
            && Iter(q.track, node.key) == (if len == BulkLimit then iter + 1 else iter)
            && (forall k :: k != node.key ==> Iter(q.track, k) == Iter(p.track, k))
  {
  }

  lemma BoundedStep<V, G>(p: Partition<V, G>, node: Node<V>, gk: (string, nat) -> G, keys: set<string>)
    requires node.key in keys && Bounded(p) && CurrentOpen(p, gk, keys)
    ensures Bounded(PartitionStep(p, node, gk))
  {
    StepFacts(p, node, gk);
  }

  /** A node stays within iteration `m` while it has fewer than 1000 * m
      records. */
  lemma IterWithinStep<V, G>(p: Partition<V, G>, node: Node<V>, gk: (string, nat) -> G, keys: set<string>, m: nat, batch: seq<Node<V>>)
    requires node.key in keys && IterWithin(p, keys, m) && Counted(p, gk, keys, batch)
    requires Count(batch + [node], node.key) < BulkLimit * m
    ensures IterWithin(PartitionStep(p, node, gk), keys, m)
  {
    StepFacts(p, node, gk);
    CountSnoc(batch, node);
  }

  lemma InRangeStep<V, G>(p: Partition<V, G>, node: Node<V>, gk: (string, nat) -> G, keys: set<string>, m: nat)
    requires InjectiveUpTo(gk, keys, m) && node.key in keys && IterWithin(p, keys, m) && InRange(p, gk, keys, m)
    ensures InRange(PartitionStep(p, node, gk), gk, keys, m)
  {
    var q := PartitionStep(p, node, gk);
    var g := gk(node.key, Iter(p.track, node.key));
    StepFacts(p, node, gk);
    forall k: string, i: nat | k in keys && 1 <= i <= m && gk(k, i) in q.bulk
      ensures i <= Iter(q.track, k)
    {
      if gk(k, i) != g {
        assert gk(k, i) in p.bulk;
      }
    }
  }

  lemma FullBeforeStep<V, G>(p: Partition<V, G>, node: Node<V>, gk: (string, nat) -> G, keys: set<string>, m: nat)
    requires InjectiveUpTo(gk, keys, m) && node.key in keys && IterWithin(p, keys, m) && FullBefore(p, gk, keys)
    ensures FullBefore(PartitionStep(p, node, gk), gk, keys)
  {
    var q := PartitionStep(p, node, gk);
    var iter := Iter(p.track, node.key);
    var g := gk(node.key, iter);
    StepFacts(p, node, gk);
    forall k: string, i: nat | k in keys && 1 <= i < Iter(q.track, k)
      ensures gk(k, i) in q.bulk && |q.bulk[gk(k, i)]| == BulkLimit
    {
      if !(k == node.key && i == iter) {
        assert i <= m;
        assert gk(k, i) != g;
        assert 1 <= i < Iter(p.track, k);
      }
    }
  }

  lemma CurrentOpenStep<V, G>(p: Partition<V, G>, node: Node<V>, gk: (string, nat) -> G, keys: set<string>, m: nat)
    requires InjectiveUpTo(gk, keys, m) && node.key in keys && IterWithin(p, keys, m) && InRange(p, gk, keys, m)
    requires CurrentOpen(p, gk, keys) && IterWithin(PartitionStep(p, node, gk), keys, m)
    ensures CurrentOpen(PartitionStep(p, node, gk), gk, keys)
  {
    var q := PartitionStep(p, node, gk);
    var iter := Iter(p.track, node.key);
    var g := gk(node.key, iter);
    StepFacts(p, node, gk);
    forall k | k in keys
      ensures |Lookup(q.bulk, gk(k, Iter(q.track, k)))| < BulkLimit
    {
      if k != node.key {
        assert gk(k, Iter(p.track, k)) != g;
      } else if Iter(q.track, k) != iter {
        var g' := gk(k, iter + 1);
        assert iter + 1 <= m;
        assert g' != g;
        assert g' !in p.bulk;
      }
    }
  }

  lemma CountedStep<V, G>(p: Partition<V, G>, node: Node<V>, gk: (string, nat) -> G, keys: set<string>, m: nat, batch: seq<Node<V>>)
    requires InjectiveUpTo(gk, keys, m) && node.key in keys && IterWithin(p, keys, m) && InRange(p, gk, keys, m)
    requires Counted(p, gk, keys, batch) && IterWithin(PartitionStep(p, node, gk), keys, m)
    ensures Counted(PartitionStep(p, node, gk), gk, keys, batch + [node])
  {
    var q := PartitionStep(p, node, gk);
    var iter := Iter(p.track, node.key);
    var g := gk(node.key, iter);
    StepFacts(p, node, gk);
    CountSnoc(batch, node);
    forall k | k in keys
      ensures Count(batch + [node], k) == BulkLimit * (Iter(q.track, k) - 1) + |Lookup(q.bulk, gk(k, Iter(q.track, k)))|
    {
      if k != node.key {
        assert gk(k, Iter(p.track, k)) != g;
      } else if Iter(q.track, k) != iter {
        var g' := gk(k, iter + 1);
        assert iter + 1 <= m;
        assert g' != g;
        assert g' !in p.bulk;
      }
    }
  }

  /** The records of a node in a prefix are no more than in the batch. */
  lemma CountPrefix<V>(batch: seq<Node<V>>, node: Node<V>)
    ensures forall k :: Count(batch, k) <= Count(batch + [node], k)
  {
    CountSnoc(batch, node);
  }

  /** The invariant holds after the whole batch, when the group key is
      injective up to iteration `m` and every node has fewer than 1000 * m
      records. */
  lemma {:induction false} PartitionTracked<V, G>(batch: seq<Node<V>>, gk: (string, nat) -> G, keys: set<string>, m: nat)
    requires m >= 1 && InjectiveUpTo(gk, keys, m) && KeysOf(batch) <= keys
    requires forall k :: k in keys ==> Count(batch, k) < BulkLimit * m
    ensures Tracked(PartitionOf(batch, gk), gk, keys, m, batch)
    decreases |batch|
  {
    if batch != [] {
      var n := |batch| - 1;
      var prefix := batch[..n];
      var node := batch[n];
      assert batch == prefix + [node];
      KeysOfPrefix(batch, n);
      assert node.key in KeysOf(batch);
      CountPrefix(prefix, node);
      PartitionTracked(prefix, gk, keys, m);
      PartitionSnoc(prefix, node, gk);
      var p := PartitionOf(prefix, gk);
      IterWithinStep(p, node, gk, keys, m, prefix);
      BoundedStep(p, node, gk, keys);
      InRangeStep(p, node, gk, keys, m);
      FullBeforeStep(p, node, gk, keys, m);
      CurrentOpenStep(p, node, gk, keys, m);
      CountedStep(p, node, gk, keys, m, prefix);
    }
  }

  /** No node has more records than the batch. */
  lemma {:induction false} CountAtMostLength<V>(batch: seq<Node<V>>, k: string)
    ensures Count(batch, k) <= |batch|
    decreases |batch|
  {
    if batch != [] {
      CountAtMostLength(batch[..|batch| - 1], k);
    }
  }

  /** No group exceeds 1000 upserts, when the group key is injective up to
      iteration `m` and every node has fewer than 1000 * m records. */
  lemma GroupsBoundedUpTo<V, G>(batch: seq<Node<V>>, gk: (string, nat) -> G, m: nat)
    requires m >= 1 && InjectiveUpTo(gk, KeysOf(batch), m)
    requires forall k :: k in KeysOf(batch) ==> Count(batch, k) < BulkLimit * m
    ensures forall g :: g in PartitionOf(batch, gk).bulk ==> 1 <= |PartitionOf(batch, gk).bulk[g]| <= BulkLimit
  {
    PartitionTracked(batch, gk, KeysOf(batch), m);
    GroupsNonEmpty(batch, gk);
  }

  /** No group exceeds 1000 upserts, when no two nodes share a group key. */
  lemma GroupsBounded<V, G>(batch: seq<Node<V>>, gk: (string, nat) -> G)
    requires InjectiveOn(gk, KeysOf(batch))
    ensures forall g :: g in PartitionOf(batch, gk).bulk ==> 1 <= |PartitionOf(batch, gk).bulk[g]| <= BulkLimit
  {
    var m := |batch| + 1;
    InjectiveOnUpTo(gk, KeysOf(batch), m);
    forall k | k in KeysOf(batch) ensures Count(batch, k) < BulkLimit * m {
      CountAtMostLength(batch, k);
    }
    GroupsBoundedUpTo(batch, gk, m);
  }

  /** No node of the batch has 10000 records or more, so the source's
      string key never reaches iteration 11. */
  ghost predicate NodesUnder10000<V>(batch: seq<Node<V>>) {
    forall k :: Count(batch, k) < 10 * BulkLimit
  }

  /** With the source's string key, every group holds 1 to 1000 upserts as
      long as no node has 10000 records or more. */
  lemma StringGroupsBounded<V>(batch: seq<Node<V>>)
    requires NodesUnder10000(batch)
    ensures forall g :: g in PartitionOf(batch, StringGroupKey).bulk ==>
              1 <= |PartitionOf(batch, StringGroupKey).bulk[g]| <= BulkLimit
  {
    StringGroupKeyInjectiveUpToTen(KeysOf(batch));
    GroupsBoundedUpTo(batch, StringGroupKey, 10);
  }

  lemma KeysOfPrefix<V>(batch: seq<Node<V>>, n: nat)
    requires n <= |batch|
    ensures KeysOf(batch[..n]) <= KeysOf(batch)
  {
    forall k | k in KeysOf(batch[..n]) ensures k in KeysOf(batch) {
      var i :| 0 <= i < n && batch[..n][i].key == k;
      assert batch[i].key == k;
    }
  }

  /** A node key with fewer than 1000 records is still on its first
      iteration. */
  lemma FewRecordsIterOne<V, G>(batch: seq<Node<V>>, gk: (string, nat) -> G, k: string, keys: set<string>, m: nat)
    requires m >= 1 && InjectiveUpTo(gk, keys, m) && KeysOf(batch) <= keys && k in keys
    requires forall k' :: k' in keys ==> Count(batch, k') < BulkLimit * m
    requires Count(batch, k) < BulkLimit
    ensures Iter(PartitionOf(batch, gk).track, k) == 1
  {
    PartitionTracked(batch, gk, keys, m);
    assert Counted(PartitionOf(batch, gk), gk, keys, batch);
  }

  lemma {:induction false} FewRecordsLabels<V, G>(batch: seq<Node<V>>, gk: (string, nat) -> G, k: string, keys: set<string>, m: nat)
    requires m >= 1 && InjectiveUpTo(gk, keys, m) && KeysOf(batch) <= keys && k in keys
    requires forall k' :: k' in keys ==> Count(batch, k') < BulkLimit * m
    requires Count(batch, k) < BulkLimit
    ensures forall j :: 0 <= j < |batch| && batch[j].key == k ==> Labels(batch, gk)[j] == gk(k, 1)
    decreases |batch|
  {
    if batch != [] {
      var n := |batch| - 1;
      var prefix := batch[..n];
      assert batch == prefix + [batch[n]];
      LabelsSnoc(prefix, batch[n], gk);
      CountPrefix(prefix, batch[n]);
      KeysOfPrefix(batch, n);
      FewRecordsLabels(prefix, gk, k, keys, m);
      FewRecordsIterOne(prefix, gk, k, keys, m);
      forall j | 0 <= j < |batch| && batch[j].key == k ensures Labels(batch, gk)[j] == gk(k, 1) {
        if j < n {
          assert prefix[j] == batch[j];
        }
      }
    }
  }

  /** A node key with fewer than 1000 records has all of them, in batch
      order, in its first group, and that group holds nothing else of it. */
  lemma FewRecordsOneGroup<V, G>(batch: seq<Node<V>>, gk: (string, nat) -> G, k: string, m: nat)
    requires m >= 1 && InjectiveUpTo(gk, KeysOf(batch) + {k}, m)
    requires forall k' :: k' in KeysOf(batch) + {k} ==> Count(batch, k') < BulkLimit * m
    requires Count(batch, k) < BulkLimit
    ensures forall j :: 0 <= j < |batch| && batch[j].key == k ==> Labels(batch, gk)[j] == gk(k, 1)
    ensures Lookup(PartitionOf(batch, gk).bulk, gk(k, 1)) == Assigned(batch, Labels(batch, gk), gk(k, 1))
    ensures |Lookup(PartitionOf(batch, gk).bulk, gk(k, 1))| == Count(batch, k)
  {
    FewRecordsLabels(batch, gk, k, KeysOf(batch) + {k}, m);
    GroupsAreAssignedRecords(batch, gk, gk(k, 1));
    PartitionTracked(batch, gk, KeysOf(batch) + {k}, m);
  }

  /** A key with 1000 + r records (0 < r < 1000) puts its first 1000
      records in its first group and the other r in its second, each group
      holding exactly the records assigned to it. */
  lemma OverLimitSpansTwoGroups<V, G>(batch: seq<Node<V>>, gk: (string, nat) -> G, k: string, r: nat, m: nat)
    requires m >= 2 && InjectiveUpTo(gk, KeysOf(batch) + {k}, m)
    requires forall k' :: k' in KeysOf(batch) + {k} ==> Count(batch, k') < BulkLimit * m
    requires 0 < r < BulkLimit && Count(batch, k) == BulkLimit + r
    ensures forall j :: 0 <= j < |batch| && batch[j].key == k ==>
              Labels(batch, gk)[j] == if CountBefore(batch, j, k) < BulkLimit then gk(k, 1) else gk(k, 2)
    ensures Lookup(PartitionOf(batch, gk).bulk, gk(k, 1)) == Assigned(batch, Labels(batch, gk), gk(k, 1))
    ensures Lookup(PartitionOf(batch, gk).bulk, gk(k, 2)) == Assigned(batch, Labels(batch, gk), gk(k, 2))
    ensures |Lookup(PartitionOf(batch, gk).bulk, gk(k, 1))| == BulkLimit
    ensures |Lookup(PartitionOf(batch, gk).bulk, gk(k, 2))| == r
    ensures Iter(PartitionOf(batch, gk).track, k) == 2
  {
    var keys := KeysOf(batch) + {k};
    var p := PartitionOf(batch, gk);
    assert Iter(p.track, k) == 2 && |Lookup(p.bulk, gk(k, 1))| == BulkLimit && |Lookup(p.bulk, gk(k, 2))| == r by {
      PartitionTracked(batch, gk, keys, m);
      assert Counted(p, gk, keys, batch) && CurrentOpen(p, gk, keys) && FullBefore(p, gk, keys);
    }
    TwoGroupLabels(batch, gk, k, r, m);
    GroupsAreAssignedRecords(batch, gk, gk(k, 1));
    GroupsAreAssignedRecords(batch, gk, gk(k, 2));
  }

  lemma TwoGroupLabels<V, G>(batch: seq<Node<V>>, gk: (string, nat) -> G, k: string, r: nat, m: nat)
    requires m >= 2 && InjectiveUpTo(gk, KeysOf(batch) + {k}, m)
    requires forall k' :: k' in KeysOf(batch) + {k} ==> Count(batch, k') < BulkLimit * m
    requires 0 < r < BulkLimit && Count(batch, k) == BulkLimit + r
    ensures forall j :: 0 <= j < |batch| && batch[j].key == k ==>
              Labels(batch, gk)[j] == if CountBefore(batch, j, k) < BulkLimit then gk(k, 1) else gk(k, 2)
  {
    forall j | 0 <= j < |batch| && batch[j].key == k
      ensures Labels(batch, gk)[j] == if CountBefore(batch, j, k) < BulkLimit then gk(k, 1) else gk(k, 2)
    {
      CountBeforeRecord(batch, j);
      LabelByCount(batch, gk, KeysOf(batch) + {k}, m, j);
      FirstTwoGroups(CountBefore(batch, j, k));
    }
  }

  lemma FirstTwoGroups(c: nat)
    requires c < 2 * BulkLimit
    ensures 1 + c / BulkLimit == if c < BulkLimit then 1 else 2
  {
  }

  /** The records of node `k` before position `j`. */
  function CountBefore<V>(batch: seq<Node<V>>, j: nat, k: string): nat
    requires j <= |batch|
  {
    Count(batch[..j], k)
  }

  /** The records before a record of node k are fewer than all of k's. */
  lemma CountBeforeRecord<V>(batch: seq<Node<V>>, j: nat)
    requires j < |batch|
    ensures CountBefore(batch, j, batch[j].key) < Count(batch, batch[j].key)
  {
    assert batch[..j + 1] == batch[..j] + [batch[j]];
    CountSnoc(batch[..j], batch[j]);
    CountPrefixUpTo(batch, j + 1, batch[j].key);
  }

  /** A prefix has no more records of a node than the batch. */
  lemma {:induction false} CountPrefixUpTo<V>(batch: seq<Node<V>>, j: nat, k: string)
    requires j <= |batch|
    ensures Count(batch[..j], k) <= Count(batch, k)
    decreases |batch|
  {
    if j < |batch| {
      var n := |batch| - 1;
      assert batch[..n][..j] == batch[..j];
      CountPrefixUpTo(batch[..n], j, k);
      assert batch == batch[..n] + [batch[n]];
      CountPrefix(batch[..n], batch[n]);
    } else {
      assert batch[..j] == batch;
    }
  }

  /** The label of record j is the group of its node in the partition of
      the records before it. */
  lemma {:induction false} LabelsAt<V, G>(batch: seq<Node<V>>, gk: (string, nat) -> G, j: nat)
    requires j < |batch|
    ensures Labels(batch, gk)[j] == GroupOf(PartitionOf(batch[..j], gk).track, batch[j].key, gk)
    decreases |batch|
  {
    var n := |batch| - 1;
    assert batch == batch[..n] + [batch[n]];
    LabelsSnoc(batch[..n], batch[n], gk);
    if j < n {
      assert batch[..n][..j] == batch[..j];
      assert batch[..n][j] == batch[j];
      LabelsAt(batch[..n], gk, j);
    }
  }

  /** A node's iteration is one more than its full groups, 1000 records
      each. */
  lemma IterByCount<V, G>(batch: seq<Node<V>>, gk: (string, nat) -> G, keys: set<string>, m: nat, k: string)
    requires m >= 1 && InjectiveUpTo(gk, keys, m) && KeysOf(batch) <= keys && k in keys
    requires forall k' :: k' in keys ==> Count(batch, k') < BulkLimit * m
    ensures Iter(PartitionOf(batch, gk).track, k) == 1 + Count(batch, k) / BulkLimit
  {
    var p := PartitionOf(batch, gk);
    PartitionTracked(batch, gk, keys, m);
    assert Counted(p, gk, keys, batch) && CurrentOpen(p, gk, keys);
    var it, c := Iter(p.track, k), |Lookup(p.bulk, gk(k, Iter(p.track, k)))|;
    assert Count(batch, k) == BulkLimit * (it - 1) + c && c < BulkLimit;
  }

  /** While the group key is injective on the iterations reached, record j
      goes to its node's group number 1 + (its node's earlier records) /
      1000: the first 1000 records of a node share group 1, the next 1000
      group 2, and so on. */
  lemma LabelsByCount<V, G>(batch: seq<Node<V>>, gk: (string, nat) -> G, keys: set<string>, m: nat)
    requires m >= 1 && InjectiveUpTo(gk, keys, m) && KeysOf(batch) <= keys
    requires forall k :: k in keys ==> Count(batch, k) < BulkLimit * m
    ensures forall j :: 0 <= j < |batch| ==>
              Labels(batch, gk)[j] == gk(batch[j].key, 1 + CountBefore(batch, j, batch[j].key) / BulkLimit)
  {
    forall j | 0 <= j < |batch|
      ensures Labels(batch, gk)[j] == gk(batch[j].key, 1 + CountBefore(batch, j, batch[j].key) / BulkLimit)
    {
      LabelByCount(batch, gk, keys, m, j);
    }
  }

  lemma LabelByCount<V, G>(batch: seq<Node<V>>, gk: (string, nat) -> G, keys: set<string>, m: nat, j: nat)
    requires m >= 1 && InjectiveUpTo(gk, keys, m) && KeysOf(batch) <= keys
    requires forall k :: k in keys ==> Count(batch, k) < BulkLimit * m
    requires j < |batch|
    ensures Labels(batch, gk)[j] == gk(batch[j].key, 1 + CountBefore(batch, j, batch[j].key) / BulkLimit)
  {
    IterBeforeRecord(batch, gk, keys, m, j);
    LabelsAt(batch, gk, j);
  }

  /** The iteration a record finds is fixed by its node's earlier records. */
  lemma IterBeforeRecord<V, G>(batch: seq<Node<V>>, gk: (string, nat) -> G, keys: set<string>, m: nat, j: nat)
    requires m >= 1 && InjectiveUpTo(gk, keys, m) && KeysOf(batch) <= keys
    requires forall k :: k in keys ==> Count(batch, k) < BulkLimit * m
    requires j < |batch|
    ensures Iter(PartitionOf(batch[..j], gk).track, batch[j].key) == 1 + CountBefore(batch, j, batch[j].key) / BulkLimit
  {
    var k, prefix := batch[j].key, batch[..j];
    assert k in keys by {
      assert batch[j].key in KeysOf(batch);
    }
    assert KeysOf(prefix) <= keys by {
      KeysOfPrefix(batch, j);
    }
    assert forall k' :: k' in keys ==> Count(prefix, k') < BulkLimit * m by {
      PrefixCountsBelow(batch, j, keys, BulkLimit * m);
    }
    IterByCount(prefix, gk, keys, m, k);
  }

  lemma PrefixCountsBelow<V>(batch: seq<Node<V>>, j: nat, keys: set<string>, bound: nat)
    requires j <= |batch|
    requires forall k :: k in keys ==> Count(batch, k) < bound
    ensures forall k :: k in keys ==> Count(batch[..j], k) < bound
  {
    forall k | k in keys ensures Count(batch[..j], k) < bound {
      CountPrefixUpTo(batch, j, k);
    }
  }

  /** Every group of the corrected, pair-keyed partition holds between 1
      and 1000 upserts. */
  lemma PairGroupsBounded<V>(batch: seq<Node<V>>)
    ensures forall g :: g in PartitionOf(batch, PairGroupKey).bulk ==>
              1 <= |PartitionOf(batch, PairGroupKey).bulk[g]| <= BulkLimit
  {
    PairGroupKeyInjective(KeysOf(batch));
    GroupsBounded(batch, PairGroupKey);
  }

  /** Every upsert targets its own record's `_id`, and every record in a
      group comes from the batch. */
  lemma {:induction false} UpsertsTargetOwnId<V, G>(batch: seq<Node<V>>, gk: (string, nat) -> G)
    ensures var bulk := PartitionOf(batch, gk).bulk;
            forall g, j :: g in bulk && 0 <= j < |bulk[g]| ==>
              bulk[g][j] == UpsertOf(bulk[g][j].doc) && bulk[g][j].doc in batch
    decreases |batch|
  {
    if batch != [] {
      var n := |batch| - 1;
      assert batch == batch[..n] + [batch[n]];
      PartitionSnoc(batch[..n], batch[n], gk);
      UpsertsTargetOwnId(batch[..n], gk);
    }
  }

  /** With pair keys, the records of group (k, i) all belong to node k. */
  lemma {:induction false} PairGroupsSingleKey<V>(batch: seq<Node<V>>)
    ensures var bulk := PartitionOf(batch, PairGroupKey).bulk;
            forall g, j :: g in bulk && 0 <= j < |bulk[g]| ==> bulk[g][j].doc.key == g.0
    decreases |batch|
  {
    if batch != [] {
      var n := |batch| - 1;
      assert batch == batch[..n] + [batch[n]];
      PartitionSnoc(batch[..n], batch[n], PairGroupKey);
      PairGroupsSingleKey(batch[..n]);
    }
  }

  /** The groups in `Object.keys` order. */
  function Groups<V, G>(bulk: map<G, seq<Upsert<V>>>, order: seq<G>): (groups: seq<seq<Upsert<V>>>)
    ensures |groups| == |order|
    decreases |order|
  {
    if order == [] then [] else Groups(bulk, order[..|order| - 1]) + [Lookup(bulk, order[|order| - 1])]
  }

  /** The number of upserts over a list of groups. */
  function Sum<V>(groups: seq<seq<Upsert<V>>>): nat
    decreases |groups|
  {
    if groups == [] then 0 else Sum(groups[..|groups| - 1]) + |groups[|groups| - 1]|
  }

  lemma {:induction false} GroupsAt<V, G>(bulk: map<G, seq<Upsert<V>>>, order: seq<G>, i: nat)
    requires i < |order|
    ensures Groups(bulk, order)[i] == Lookup(bulk, order[i])
    decreases |order|
  {
    var n := |order| - 1;
    if i < n {
      GroupsAt(bulk, order[..n], i);
      assert Groups(bulk, order)[i] == Groups(bulk, order[..n])[i];
    }
  }

  lemma {:induction false} GroupsSum<V, G>(bulk: map<G, seq<Upsert<V>>>, order: seq<G>)
    ensures Sum(Groups(bulk, order)) == Total(bulk, order)
    decreases |order|
  {
    if order != [] {
      var n := |order| - 1;
      var gs := Groups(bulk, order);
      GroupsSum(bulk, order[..n]);
      assert gs[..n] == Groups(bulk, order[..n]);
    }
  }

  lemma GroupsFacts<V, G>(bulk: map<G, seq<Upsert<V>>>, order: seq<G>)
    ensures forall i :: 0 <= i < |order| ==> Groups(bulk, order)[i] == Lookup(bulk, order[i])
    ensures Sum(Groups(bulk, order)) == Total(bulk, order)
  {
    forall i | 0 <= i < |order| ensures Groups(bulk, order)[i] == Lookup(bulk, order[i]) {
      GroupsAt(bulk, order, i);
    }
    GroupsSum(bulk, order);
  }

  /** `Object.keys(bulkBatch).forEach(key => …)`: the groups in creation
      order. */
  method CollectGroups<V, G>(bulkBatch: map<G, seq<Upsert<V>>>, bulkKeys: seq<G>)
    returns (groups: seq<seq<Upsert<V>>>)
    requires forall g :: g in bulkKeys ==> g in bulkBatch
    ensures groups == Groups(bulkBatch, bulkKeys)
  {
    groups := [];
    for i := 0 to |bulkKeys|
      invariant groups == Groups(bulkBatch, bulkKeys[..i])
    {
      assert bulkKeys[..i + 1][..i] == bulkKeys[..i];
      groups := groups + [bulkBatch[bulkKeys[i]]];
    }
    assert bulkKeys[..|bulkKeys|] == bulkKeys;
  }

  /** For any group key, the executed groups are those of the distinct
      listed keys, together they hold the whole batch, and a non-empty batch
      gives at least one group. */
  lemma PartitionGroupsCover<V, G>(batch: seq<Node<V>>, gk: (string, nat) -> G)
    ensures forall g :: g in PartitionOf(batch, gk).order <==> g in PartitionOf(batch, gk).bulk
    ensures var order := PartitionOf(batch, gk).order;
            forall i, j :: 0 <= i < j < |order| ==> order[i] != order[j]
    ensures Sum(ExecutedGroups(batch, gk)) == |batch|
    ensures batch != [] ==> |PartitionOf(batch, gk).order| >= 1
  {
    var p := PartitionOf(batch, gk);
    OrderListsGroupsOnce(batch, gk);
    TotalIsBatchLength(batch, gk);
    GroupsFacts(p.bulk, p.order);
  }

  /** The groups `put` executes, in `Object.keys` order. */
  function ExecutedGroups<V, G(==)>(batch: seq<Node<V>>, gk: (string, nat) -> G): seq<seq<Upsert<V>>> {
    Groups(PartitionOf(batch, gk).bulk, PartitionOf(batch, gk).order)
  }

  /** Over keys that all exist, the i-th listed group is the group of the
      i-th key. */
  lemma GroupsAreLookups<V, G>(bulk: map<G, seq<Upsert<V>>>, order: seq<G>)
    requires forall g :: g in bulk <==> g in order
    ensures forall i :: 0 <= i < |order| ==> order[i] in bulk && Groups(bulk, order)[i] == bulk[order[i]]
  {
    GroupsFacts(bulk, order);
    forall i | 0 <= i < |order| ensures order[i] in bulk {
      assert order[i] in order;
    }
  }

  /** The i-th executed group is the group of the i-th created key. */
  lemma PartitionGroupsAreLookups<V, G>(batch: seq<Node<V>>, gk: (string, nat) -> G)
    ensures var p := PartitionOf(batch, gk);
            forall i :: 0 <= i < |p.order| ==> p.order[i] in p.bulk && ExecutedGroups(batch, gk)[i] == p.bulk[p.order[i]]
  {
    var p := PartitionOf(batch, gk);
    OrderListsGroupsOnce(batch, gk);
    GroupsAreLookups(p.bulk, p.order);
  }

  /** For any group key, every record is assigned to a listed group, and
      the i-th executed group is exactly the records assigned to the i-th
      key, in batch order; as the keys are distinct, every record is in
      exactly one executed group. */
  lemma PartitionGroupsAssigned<V, G>(batch: seq<Node<V>>, gk: (string, nat) -> G)
    ensures forall j :: 0 <= j < |batch| ==> Labels(batch, gk)[j] in PartitionOf(batch, gk).order
    ensures forall i :: 0 <= i < |PartitionOf(batch, gk).order| ==>
              ExecutedGroups(batch, gk)[i] == Assigned(batch, Labels(batch, gk), PartitionOf(batch, gk).order[i])
  {
    var p := PartitionOf(batch, gk);
    OrderListsGroupsOnce(batch, gk);
    LabelsAreGroups(batch, gk);
    PartitionGroupsAreLookups(batch, gk);
    forall i | 0 <= i < |p.order|
      ensures ExecutedGroups(batch, gk)[i] == Assigned(batch, Labels(batch, gk), p.order[i])
    {
      GroupsAreAssignedRecords(batch, gk, p.order[i]);
    }
  }

  /** Every group holds 1 to 1000 upserts. */
  ghost predicate WithinLimit<V>(groups: seq<seq<Upsert<V>>>) {
    forall i :: 0 <= i < |groups| ==> 1 <= |groups[i]| <= BulkLimit
  }

  /** Every group holds upserts of one node only. */
  ghost predicate OneNodeEach<V>(groups: seq<seq<Upsert<V>>>) {
    forall i, j, j' :: 0 <= i < |groups| && 0 <= j < |groups[i]| && 0 <= j' < |groups[i]| ==>
      groups[i][j].doc.key == groups[i][j'].doc.key
  }

  /** Every upsert targets its own record's `_id`, and that record is from
      the batch. */
  ghost predicate TargetOwnIds<V>(batch: seq<Node<V>>, groups: seq<seq<Upsert<V>>>) {
    forall i, j :: 0 <= i < |groups| && 0 <= j < |groups[i]| ==>
      groups[i][j] == UpsertOf(groups[i][j].doc) && groups[i][j].doc in batch
  }

  /** Each executed group holds 1 to 1000 upserts when every group does. */
  lemma ListedGroupsSized<V, G>(batch: seq<Node<V>>, gk: (string, nat) -> G)
    requires forall g :: g in PartitionOf(batch, gk).bulk ==> 1 <= |PartitionOf(batch, gk).bulk[g]| <= BulkLimit
    ensures WithinLimit(ExecutedGroups(batch, gk))
  {
    PartitionGroupsAreLookups(batch, gk);
  }

  /** With the corrected group key, each executed group holds 1 to 1000
      upserts. */
  lemma PairGroupsSized<V>(batch: seq<Node<V>>)
    ensures WithinLimit(ExecutedGroups(batch, PairGroupKey))
  {
    PairGroupsBounded(batch);
    ListedGroupsSized(batch, PairGroupKey);
  }

  /** With the source's string key, each executed group holds 1 to 1000
      upserts while no node has 10000 records or more. */
  lemma StringGroupsSized<V>(batch: seq<Node<V>>)
    ensures NodesUnder10000(batch) ==> WithinLimit(ExecutedGroups(batch, StringGroupKey))
  {
    if NodesUnder10000(batch) {
      StringGroupsBounded(batch);
      ListedGroupsSized(batch, StringGroupKey);
    }
  }

  /** For any group key, each executed upsert targets its own record's
      `_id`, and that record is from the batch. */
  lemma PartitionGroupsOwnIds<V, G>(batch: seq<Node<V>>, gk: (string, nat) -> G)
    ensures TargetOwnIds(batch, ExecutedGroups(batch, gk))
  {
    PartitionGroupsAreLookups(batch, gk);
    UpsertsTargetOwnId(batch, gk);
  }

  /** With the corrected group key, each executed group holds upserts of
      one node. */
  lemma PairGroupsOneNode<V>(batch: seq<Node<V>>)
    ensures OneNodeEach(ExecutedGroups(batch, PairGroupKey))
  {
    PartitionGroupsAreLookups(batch, PairGroupKey);
    PairGroupsSingleKey(batch);
  }

  /** `groups`, keyed by the distinct `keys`, hold every record of the batch
      exactly once: record j is in the group of its label `labels[j]`, each
      group is the records labelled with its key in batch order, and each
      upsert targets its own record's `_id`. */
  ghost predicate Distributed<V, G>(batch: seq<Node<V>>, labels: seq<G>, keys: seq<G>, groups: seq<seq<Upsert<V>>>)
    requires |labels| == |batch|
  {
    && |keys| == |groups|
    && (forall i, j :: 0 <= i < j < |keys| ==> keys[i] != keys[j])
    && (forall j :: 0 <= j < |batch| ==> labels[j] in keys)
    && (forall i :: 0 <= i < |groups| ==> groups[i] == Assigned(batch, labels, keys[i]))
    && Sum(groups) == |batch|
    && TargetOwnIds(batch, groups)
  }

  /** For any group key, the partition distributes the batch over its listed
      groups, and a non-empty batch has at least one. */
  lemma PartitionDistributed<V, G>(batch: seq<Node<V>>, gk: (string, nat) -> G)
    ensures Distributed(batch, Labels(batch, gk), PartitionOf(batch, gk).order, ExecutedGroups(batch, gk))
    ensures forall g :: g in PartitionOf(batch, gk).order ==> g in PartitionOf(batch, gk).bulk
    ensures batch != [] ==> |PartitionOf(batch, gk).order| >= 1
  {
    PartitionGroupsCover(batch, gk);
    PartitionGroupsAssigned(batch, gk);
    PartitionGroupsOwnIds(batch, gk);
  }

  /** `n` records of one node. */
  function Repeat<V>(node: Node<V>, n: nat): (batch: seq<Node<V>>)
    ensures |batch| == n
    decreases n
  {
    if n == 0 then [] else Repeat(node, n - 1) + [node]
  }

  lemma {:induction false} RepeatAll<V>(node: Node<V>, n: nat)
    ensures forall i :: 0 <= i < n ==> Repeat(node, n)[i] == node
    decreases n
  {
    if n > 0 {
      RepeatAll(node, n - 1);
    }
  }

  lemma {:induction false} RepeatFacts<V>(node: Node<V>, n: nat)
    ensures Count(Repeat(node, n), node.key) == n
    ensures KeysOf(Repeat(node, n)) <= {node.key}
    decreases n
  {
    if n > 0 {
      var b := Repeat(node, n - 1);
      RepeatFacts(node, n - 1);
      CountSnoc(b, node);
      assert Repeat(node, n) == b + [node];
    }
    RepeatAll(node, n);
  }

  /** The node keys `track` knows are those of the batch. */
  lemma {:induction false} TrackKeys<V, G>(batch: seq<Node<V>>, gk: (string, nat) -> G)
    ensures PartitionOf(batch, gk).track.Keys <= KeysOf(batch)
    decreases |batch|
  {
    if batch != [] {
      var n := |batch| - 1;
      assert batch == batch[..n] + [batch[n]];
      PartitionSnoc(batch[..n], batch[n], gk);
      TrackKeys(batch[..n], gk);
      forall k | k in KeysOf(batch[..n]) ensures k in KeysOf(batch) {
        var i :| 0 <= i < n && batch[..n][i].key == k;
        assert batch[i].key == k;
      }
      assert batch[n].key in KeysOf(batch);
    }
  }

  /** After 10999 records of node "a", its 11th group "a11" holds 999. */
  lemma StateAfter10999OfA<V>(v: V)
    ensures var p := PartitionOf(Repeat(Node("a", None, v), 10999), StringGroupKey);
            && Iter(p.track, "a") == 11 && "a1" !in p.track
            && |Lookup(p.bulk, StringGroupKey("a", 11))| == 999
  {
    var node := Node("a", None, v);
    var batch := Repeat(node, 10999);
    RepeatFacts(node, 10999);
    StringGroupKeyInjectiveOnOneKey("a");
    InjectiveOnUpTo(StringGroupKey, {"a"}, 11);
    PartitionTracked(batch, StringGroupKey, {"a"}, 11);
    TrackKeys(batch, StringGroupKey);
  }

  /** With the source's string group keys a group can grow past 1000: after
      10999 records of node "a", one record of node "a1" fills the shared
      group "a11" to 1000, which moves "a1" on but not "a", so the next
      record of "a" makes it 1001. */
  lemma AsWrittenGroupOverflows<V>(v: V)
    ensures var batch := Repeat(Node("a", None, v), 10999) + [Node("a1", None, v), Node("a", None, v)];
            var p := PartitionOf(batch, StringGroupKey);
            "a11" in p.bulk && |p.bulk["a11"]| == 1001
  {
    var a, a1 := Node("a", None, v), Node("a1", None, v);
    var b0 := Repeat(a, 10999);
    StateAfter10999OfA(v);
    StringGroupKeysCollide();
    PartitionSnoc(b0, a1, StringGroupKey);
    PartitionSnoc(b0 + [a1], a, StringGroupKey);
    var p0 := PartitionOf(b0, StringGroupKey);
    var p1 := PartitionStep(p0, a1, StringGroupKey);
    assert Iter(p0.track, "a1") == 1;
    assert |p1.bulk["a11"]| == 1000;
    assert Iter(p1.track, "a") == 11;
    assert b0 + [a1] + [a] == b0 + [a1, a];
  }

  // ---------------------------------------------------------------------
  // Completion reconciliation (`bulkWritten`)

  /** The arguments of one `execute` callback: whether `err` is truthy, and
      whether `args.ok` is truthy, `None` when `args` itself is falsy. */
  datatype Completion = Completion(err: bool, ok: Option<bool>)

  /** `err || (args && !args.ok)`. */
  predicate Failed(c: Completion) {
    c.err || (c.ok.Some? && !c.ok.value)
  }

  /** `bulkWritten` as written: `done` is called when the counter reaches
      the number of groups, with the error of that completion alone. The
      completions arrive in any order, one per group. */
  method BulkWritten(groups: nat, arrivals: seq<Completion>) returns (calls: seq<Signal>)
    ensures |calls| == (if 1 <= groups <= |arrivals| then 1 else 0)
    ensures 1 <= groups <= |arrivals| ==> calls[0] == (if Failed(arrivals[groups - 1]) then Internal else Ok)
  {
    var written := 0;
    calls := [];
    while written < |arrivals|
      invariant 0 <= written <= |arrivals|
      invariant calls == if 1 <= groups <= written then [if Failed(arrivals[groups - 1]) then Internal else Ok] else []
    {
      var c := arrivals[written];
      written := written + 1;
      if groups == written {
        calls := calls + [if Failed(c) then Internal else Ok];
      }
    }
  }

  /** Two groups, the first to complete fails: `done` reports success. */
  method EarlierFailureIsLost() returns (calls: seq<Signal>)
    ensures calls == [Ok]
  {
    calls := BulkWritten(2, [Completion(true, None), Completion(false, Some(true))]);
  }

  /** Whether any of the first `n` completions failed. */
  predicate AnyFailed(arrivals: seq<Completion>, n: nat)
    requires n <= |arrivals|
  {
    exists i :: 0 <= i < n && Failed(arrivals[i])
  }

  /** The counter with the otherwise unused `writeErr` recording every
      failure: `done` is called once all groups have completed, with an
      internal error when any of them failed. */
  method BulkWrittenAggregated(groups: nat, arrivals: seq<Completion>) returns (calls: seq<Signal>)
    ensures |calls| == (if 1 <= groups <= |arrivals| then 1 else 0)
    ensures 1 <= groups <= |arrivals| ==> calls[0] == (if AnyFailed(arrivals, groups) then Internal else Ok)
  {
    var written := 0;
    var writeErr := false;
    calls := [];
    while written < |arrivals|
      invariant 0 <= written <= |arrivals|
      invariant writeErr == (exists i :: 0 <= i < written && i < groups && Failed(arrivals[i]))
      invariant calls == if 1 <= groups <= written then [if AnyFailed(arrivals, groups) then Internal else Ok] else []
    {
      var c := arrivals[written];
      writeErr := writeErr || (written < groups && Failed(c));
      written := written + 1;
      if groups == written {
        calls := calls + [if writeErr then Internal else Ok];
      }
    }
  }

  /** The aggregated outcome does not depend on the order in which the
      groups complete. */
  lemma AggregateOrderIndependent(a: seq<Completion>, b: seq<Completion>)
    requires multiset(a) == multiset(b)
    ensures |a| == |b|
    ensures AnyFailed(a, |a|) <==> AnyFailed(b, |b|)
  {
    calc {
      |a|;
      |multiset(a)|;
      |multiset(b)|;
      |b|;
    }
    if AnyFailed(a, |a|) {
      var i :| 0 <= i < |a| && Failed(a[i]);
      assert a[i] in multiset(b);
      var j :| 0 <= j < |b| && b[j] == a[i];
    }
    if AnyFailed(b, |b|) {
      var j :| 0 <= j < |b| && Failed(b[j]);
      assert b[j] in multiset(a);
      var i :| 0 <= i < |a| && a[i] == b[j];
    }
  }
}
