# gun-tingo, modelled in Dafny

gun-tingo is a key/value storage adapter for the Gun graph engine, built on a
document database with a MongoDB-style driver (TingoDB). It has one source
file, `gun-tingo.js`. This project models the data path of that file and
proves properties of the model:

- **Naming** (`naming.dfy`). `getKeyField` builds the document `_id` of a node
  or of one node field. `getCollection` is a sharding helper that the adapter
  never calls. Both are pure string functions.
- **Read streamer** (`read_stream.dfy`). `_streamResults` attaches four
  handlers to a cursor: `data`, `error`, `end` and `close`. The handlers share
  the variables `buffer`, `hasResult` and `queryErr`, and report back through
  `streamOut(error, payload)`.
  - The cursor is modelled as a finite sequence of events.
  - `StreamResults` runs the handlers with those variables as locals, in a
    loop.
  - It is proved equal to the fold `Fold`, which the lemmas are about.
- **Write batcher** (`write_batch.dfy`). `put` has two stages.
  - A `forEach` loop partitions the batch into bulk groups. It keeps a
    per-node iteration counter (`track`) and a group dictionary
    (`bulkBatch`), and a node moves to a new group once its current group
    holds 1000 upserts.
  - A completion counter (`bulkWritten`) calls `done` once every group has
    completed.
  - `PartitionBatch` is the loop, with both dictionaries as maps. It is proved
    equal to the fold `PartitionOf`.
  - The group key is a parameter `gk`. The source's key is `StringGroupKey`
    (`node.key + iter`).
  - Completions arrive in any order, given as a sequence.
- **Façade** (`gun_tingo.dfy`). `get` and `put` do nothing until the adapter
  is initialized. Then `get` picks the query and streams the cursor back, and
  `put` partitions, executes and reconciles.

### How JavaScript values are modelled

JavaScript falsy values are modelled as `Option.None`. A string that is `""`
also counts as falsy, so `Naming.Truthy` is the source's `if (x)`.

A cursor event is one of:
- `Data(Some(doc))`, a truthy document;
- `Data(None)`, a falsy document, which the handler drops;
- `Error(e)` or `End(e)`, with the optional error argument `e`;
- `Close`.

An emission is the pair (signal, optional payload). The signal `Ok` stands
for `null`, `Internal` for `errors.internal` and `NotFound` for `errors.lost`.

### Chunk size

The `data` handler is a plain function, not an arrow function. So the
`this.chunkSize` it reads is looked up on the object the event emitter calls
it on (the cursor), not on the adapter. The streamer therefore takes the chunk
size the handler actually sees, as an `Option<nat>`. With `None` the buffer
never flushes mid-stream (`NoChunkNeverFlushes`), and all documents leave at
`end`.

### Behaviour of the code worth noting

The model follows the code in each of these cases:
- **A clean `end` erases an earlier error.** The `end` handler overwrites
  `queryErr` with its own argument, and a cursor emits `end` without one. A
  failed query that then ends therefore reports not-found when no document
  came (`ErrorBeforeEndIsForgotten`), and success with the remainder
  otherwise (`ErrorAfterDocumentIsSuccess`). The `close` is clean either
  way.
- **The `end` buffer is not cleared.** A second `end` would deliver the
  remainder again. The conservation lemmas therefore speak of the events up
  to the first `end`.
- **`close` always signals.** It emits one more signal after `end`, with no
  payload.
- **Chunk size 1.** With chunk size `n`, `n + 1` documents give one full
  chunk and then one document at `end` only when `n >= 2`
  (`ChunkPlusOne`). With `n = 1` both documents flush as chunks.
- **Uninitialized adapter, empty batch.** `get` and `put` on an
  uninitialized adapter, and `put` with an empty batch, do nothing and never
  call back.
- **The error of a whole `put`.** The error `done` reports comes from the
  last completion only. See Findings for this and for the group-key
  collision.

## Model

| member | source | states |
|---|---|---|
| Naming.KeyField | gun-tingo.js:8-10 | definition: `_id` is `key` without a field, `key + "_" + field` with one; its contract states that the key is a prefix of the `_id` |
| Naming.KeyFieldRoundTrip | gun-tingo.js:8-10 | given the node key, the field is recovered from the `_id` (a falsy field is no field) |
| Naming.KeyFieldInjective | gun-tingo.js:8-10 | two fields of one node never share a document |
| Naming.KeyFieldCollidesAcrossKeys | gun-tingo.js:8-10 | across nodes the scheme is not injective: field "b" of "a" and node "a_b" share `_id` "a_b" |
| Naming.ReplaceFirstNonWord | gun-tingo.js:5 | `replace(/\W/, '_')` keeps the length and changes nothing when all characters are word characters |
| Naming.ReplacesFirstNonWordAt | gun-tingo.js:5 | when `j` is the first non-word character, exactly that character becomes '_' and the rest is kept |
| Naming.Collection | gun-tingo.js:4-6 | a falsy argument gives "gun"; otherwise the name has 1 or 2 characters, as many as the argument's first two |
| Naming.CollectionOfKey | gun-tingo.js:4-6 | the name is the key's first two characters, with a leading unsafe character, or else an unsafe second one, replaced by '_' |
| Naming.CollectionReplacesOnlyFirst | gun-tingo.js:5 | without the `g` flag a second unsafe character survives: "$%x" gives "_%" |
| ReadStream.Step | gun-tingo.js:113-136 | definition: one handler invocation. `data` with a truthy document appends it, sets `hasResult`, and flushes `(null, buffer)` and resets the buffer when it reaches the chunk size. `error` stores its argument in `queryErr`. `end` stores its argument, then emits not-found when neither an error nor a result exists, and otherwise the signal and the buffer when non-empty. `close` emits internal when `queryErr` is set, Ok otherwise |
| ReadStream.Fold | gun-tingo.js:105-137 | definition: the handlers applied to the cursor's events in arrival order, from an empty buffer, no result and no error |
| ReadStream.StreamResults | gun-tingo.js:105-137 | running the four handlers over the events, with `buffer`, `hasResult`, `queryErr` as locals, emits exactly what the event fold emits |
| ReadStream.HasResultIffDocs | gun-tingo.js:113-116 | `hasResult` is set exactly when some truthy document has arrived |
| ReadStream.QueryErrIsLastErr | gun-tingo.js:123-128 | `queryErr` is the argument of the last `error` or `end` event |
| ReadStream.BufferBelowChunk | gun-tingo.js:113-121 | with chunk size n >= 1 the buffer always holds fewer than n documents |
| ReadStream.DataFlushIsFullChunk | gun-tingo.js:114-120 | a `data` event emits nothing or one chunk of exactly n documents with a null error |
| ReadStream.NoChunkNeverFlushes | gun-tingo.js:113-121 | without a chunk size the `data` events emit nothing and the buffer is every truthy document in order |
| ReadStream.DocsConserved | gun-tingo.js:113-125 | before `end`, emitted payloads followed by the buffer are the truthy documents in arrival order |
| ReadStream.EndEmission | gun-tingo.js:126-133 | `end` emits exactly once: not-found with no payload exactly when it has no error and no truthy document came; otherwise internal exactly when its own argument is set, with the unflushed remainder if non-empty |
| ReadStream.DocsDeliveredByEnd | gun-tingo.js:113-133 | all payloads emitted up to and including the first `end` are the truthy documents in arrival order, each once |
| ReadStream.CloseEmission | gun-tingo.js:134-136 | `close` emits once more, no payload, internal exactly when the last `error`/`end` carried an error |
| ReadStream.ErrorBeforeEndIsForgotten | gun-tingo.js:123-136 | with no document, an error (any message) followed by an argument-less `end` is reported as not-found and a clean close |
| ReadStream.ErrorAfterDocumentIsSuccess | gun-tingo.js:113-136 | a document, then an error, then an argument-less `end`: the document is delivered with a null error, then a clean close (chunk size other than 1) |
| ReadStream.EmptyCursorIsNotFound | gun-tingo.js:126-136 | a cursor with no documents gives not-found, then a clean close |
| ReadStream.FillBelowChunk | gun-tingo.js:113-121 | documents that never reach the chunk size are only buffered, in order |
| ReadStream.FullChunkFlushed | gun-tingo.js:117-120 | the n-th document flushes the n buffered documents and empties the buffer |
| ReadStream.OneAfterFullChunk | gun-tingo.js:113-121 | one document after a flushed chunk (n >= 2) stays buffered |
| ReadStream.CleanEndThenClose | gun-tingo.js:126-136 | a clean `end` then `close` emit not-found or the remainder, then a null close signal |
| ReadStream.ExactChunk | gun-tingo.js:113-136 | n documents with chunk size n: one chunk at the boundary, a successful `end` without payload, a clean close |
| ReadStream.ChunkPlusOne | gun-tingo.js:113-136 | n + 1 documents with chunk size n >= 2: one full chunk, the last document alone at `end`, a clean close |
| ReadStream.OnlyFlushesBeforeEnd | gun-tingo.js:113-125 | over `data` and `error` events every emission is a chunk flush with a null error and exactly chunk-size documents |
| ReadStream.CursorOutcome | gun-tingo.js:105-137 | for documents and errors, then `end`, then `close`: chunk flushes, exactly one `end` emission (not-found exactly when no document and no error), the close signal last; the payloads are the documents in order |
| WriteBatch.Iter | gun-tingo.js:159 | `track[node.key]`, or 1 when unset, is at least 1 |
| WriteBatch.DecimalStringInjective | gun-tingo.js:160 | the decimal text of the iteration determines it |
| WriteBatch.StringGroupKey | gun-tingo.js:160 | definition: the group key `node.key + iter`, the node key followed by the decimal text of the iteration |
| WriteBatch.StringGroupKeyInjectiveOnOneKey | gun-tingo.js:160 | for one node key, `key + iter` is injective in `iter` |
| WriteBatch.StringGroupKeysCollide | gun-tingo.js:160 | across node keys it is not: "a" + 11 and "a1" + 1 are both "a11" |
| WriteBatch.PairGroupKeyInjective | gun-tingo.js:160 | the corrected (key, iteration) group key is injective |
| WriteBatch.StringGroupKeyInjectiveUpToTen | gun-tingo.js:159-160 | for iterations 1 to 10 no two nodes share a group key `key + iter`: one-digit suffixes are told apart by the last character, and "10" would need another node at iteration 0, which never occurs |
| WriteBatch.PartitionStep | gun-tingo.js:157-169 | definition: one `forEach` callback. It reads the node's iteration (`track[key] || 1`), creates and lists the group if it is new, appends the record's upsert, and moves the node to the next iteration when the group reaches exactly 1000 |
| WriteBatch.PartitionOf | gun-tingo.js:150-170 | definition: the callback applied to the batch's records in order, from empty `track` and `bulkBatch` |
| WriteBatch.PartitionBatch | gun-tingo.js:154-170 | the `forEach` loop over `track` and `bulkBatch` builds exactly the partition fold's dictionaries and group order |
| WriteBatch.PlaceNode | gun-tingo.js:155-170 | the `forEach` callback for one node performs exactly one step of the partition fold: iteration `track[key]` (1 when unset), the upsert appended to that iteration's group (created and listed if new), the iteration advanced when the group reaches 1000 |
| WriteBatch.GroupsAreAssignedRecords | gun-tingo.js:155-170 | for any group key, each group is exactly the upserts of the records assigned to it, in batch order |
| WriteBatch.OrderListsGroupsOnce | gun-tingo.js:161 | `Object.keys(bulkBatch)` lists every group exactly once |
| WriteBatch.TotalIsBatchLength | gun-tingo.js:155-170 | the groups hold as many upserts as the batch has records |
| WriteBatch.GroupsNonEmpty | gun-tingo.js:161-162 | every group that exists holds an upsert |
| WriteBatch.UpsertOf | gun-tingo.js:162 | definition: `find({_id: getKeyField(node.key, node.field)}).upsert().replaceOne(node)`, the record's `_id` and the record |
| WriteBatch.UpsertsTargetOwnId | gun-tingo.js:162 | every upsert in every group targets its own record's `_id`, and its record is from the batch |
| WriteBatch.TrackKeys | gun-tingo.js:159 | `track` only knows node keys of the batch |
| WriteBatch.PartitionTracked | gun-tingo.js:155-170 | when no two nodes share a group key up to iteration m and every node has fewer than 1000·m records: no node passes iteration m; a node's groups up to m are its iterations 1..track; those before the current one hold exactly 1000; the current has room; its records number 1000 per full group plus the current group's size; none is over 1000 |
| WriteBatch.GroupsBoundedUpTo | gun-tingo.js:164-169 | when no two nodes share a group key up to iteration m and every node has fewer than 1000·m records, every group holds 1 to 1000 upserts |
| WriteBatch.GroupsBounded | gun-tingo.js:164-169 | when no two nodes share a group key at any iteration, every group holds 1 to 1000 upserts |
| WriteBatch.StringGroupsBounded | gun-tingo.js:159-169 | with the source's string key, every group holds 1 to 1000 upserts while no node has 10000 records or more |
| WriteBatch.FewRecordsOneGroup | gun-tingo.js:157-169 | when no two nodes share a group key up to iteration m and every node has fewer than 1000·m records, a node with fewer than 1000 records has them all, in order, in its first group |
| WriteBatch.OverLimitSpansTwoGroups | gun-tingo.js:157-169 | when no two nodes share a group key up to iteration m >= 2 and every node has fewer than 1000·m records, a node with 1000 + r records (0 < r < 1000) sends its first 1000 records to its first group and the rest to its second, no record of it elsewhere; each of the two groups is exactly the records assigned to it, in batch order, sized 1000 and r |
| WriteBatch.LabelsByCount | gun-tingo.js:157-169 | under the same premise, each record goes to its node's group number 1 + (records of that node before it) / 1000 |
| WriteBatch.PairGroupsBounded | gun-tingo.js:164-169 | with the corrected group key every group holds 1 to 1000 upserts |
| WriteBatch.PairGroupsSingleKey | gun-tingo.js:160 | with the corrected group key a group holds records of one node only |
| WriteBatch.StateAfter10999OfA | gun-tingo.js:159-169 | 10999 records of node "a" leave it at iteration 11 with 999 upserts in group "a11" |
| WriteBatch.AsWrittenGroupOverflows | gun-tingo.js:159-169 | with the source's string key, 10999 records of "a", one of "a1" and one more of "a" make group "a11" hold 1001 upserts |
| WriteBatch.GroupsFacts | gun-tingo.js:172 | the groups in key order are the dictionary's groups and hold the partition's total |
| WriteBatch.CollectGroups | gun-tingo.js:172-186 | the groups executed by `bulkKeys.forEach(key => bulkBatch[key].execute(…))` are the dictionary's groups in key order |
| WriteBatch.PartitionGroupsAreLookups | gun-tingo.js:172-186 | for any group key, the i-th executed group is the group of the i-th listed key, and that key exists |
| WriteBatch.FewRecordsIterOne | gun-tingo.js:159-169 | under the same premise as `FewRecordsOneGroup`, a node with fewer than 1000 records is still on iteration 1 |
| WriteBatch.LabelsAreGroups | gun-tingo.js:161-162 | the group each record was assigned to exists after the loop |
| WriteBatch.PartitionGroupsCover | gun-tingo.js:155-186 | for any group key, the listed keys are exactly the groups, distinct, the executed groups hold as many upserts as the batch has records, and a non-empty batch has at least one |
| WriteBatch.PartitionGroupsAssigned | gun-tingo.js:155-186 | for any group key, every record's group is listed, and the i-th executed group is exactly the records assigned to the i-th key, in batch order |
| WriteBatch.PartitionGroupsOwnIds | gun-tingo.js:162 | for any group key, every executed upsert targets its own record's `_id` and its record is from the batch |
| WriteBatch.PartitionDistributed | gun-tingo.js:155-186 | for any group key, the executed groups hold every record of the batch exactly once, in the group of its key and in batch order |
| WriteBatch.ListedGroupsSized | gun-tingo.js:164-186 | when every group holds 1 to 1000 upserts, so does every executed group |
| WriteBatch.PairGroupsSized | gun-tingo.js:164-169 | with the corrected group key every executed group holds 1 to 1000 upserts |
| WriteBatch.StringGroupsSized | gun-tingo.js:159-186 | with the source's string key every executed group holds 1 to 1000 upserts while no node has 10000 records or more |
| WriteBatch.PairGroupsOneNode | gun-tingo.js:160 | with the corrected group key every executed group holds upserts of one node |
| WriteBatch.Failed | gun-tingo.js:178 | definition: `err || (args && !args.ok)`, a truthy error or a truthy `args` whose `ok` is falsy |
| WriteBatch.BulkWritten | gun-tingo.js:172-185 | `done` is called once when the completions reach the number of groups, never before, with an internal error exactly when that last completion had `err` or `!args.ok` |
| WriteBatch.EarlierFailureIsLost | gun-tingo.js:175-179 | two groups, the first to complete fails: `done(null)` |
| WriteBatch.BulkWrittenAggregated | gun-tingo.js:148-149 | the corrected counter: `done` once when all groups completed, internal exactly when any of them failed |
| WriteBatch.AggregateOrderIndependent | gun-tingo.js:182-185 | the aggregated outcome does not depend on the order in which the groups complete |
| GunTingo.Get | gun-tingo.js:58-95 | uninitialized: no query, no emission; a truthy field queries `_id = getKeyField(key, field)` with limit 1, otherwise all documents of `key`; the cursor is streamed back as the fold says |
| GunTingo.FieldReadFindsWrittenDocument | gun-tingo.js:77-81 | a field read looks up the `_id` a write of that field upserts |
| GunTingo.Put | gun-tingo.js:145-186 | uninitialized or empty batch: no group, no `done`; otherwise at least one group, with distinct keys, every record in exactly one group (the group of its key), each group its records in batch order, 1 to 1000 per group, one node per group, each upserting its own `_id`; `done` is called once when as many completions as groups arrived, internal exactly when one of them failed |
| GunTingo.PutAsWritten | gun-tingo.js:145-186 | the source's `put` with its string group key and last-completion error: the same gating and distribution of the records; 1 to 1000 upserts per group while no node has 10000 records or more; `done` called once when as many completions as groups arrived, internal exactly when that last completion failed |

## Findings

| source | as written | input that shows it | evidently intended | confidence | as-written member | corrected member |
|---|---|---|---|---|---|---|
| gun-tingo.js:159-169 | the group key `node.key + iter` is a plain concatenation, so groups of two nodes can share a key, and the `=== 1000` test after another node's push lets the group grow without bound | 10999 records of node "a", then one record of node "a1", then one of "a": group "a11" holds 1001 upserts | no bulk group above 1000 upserts, each group holding one node's records | medium (a shared key needs a node at iteration 11, so 10000 or more records of one node in one batch), not executed | WriteBatch.AsWrittenGroupOverflows | WriteBatch.PairGroupsBounded |
| gun-tingo.js:175-179 | `done`'s error is computed from the last completion's arguments alone, and `writeErr` (line 149) is never used | two groups; the first completes with an error, the second with `ok`: `done(null)` | `done` reports an internal error when any group failed | high, not executed | WriteBatch.EarlierFailureIsLost | WriteBatch.BulkWrittenAggregated |

`GunTingo.Put` uses both corrections: the group key `PairGroupKey` and
`BulkWrittenAggregated`. `GunTingo.PutAsWritten` is the source as written:
`PartitionBatch` with `StringGroupKey`, together with `BulkWritten`.

## Left out

- `opt` (connection and option parsing, TingoDB construction) is not modelled. `initialized` is a field of `Adapter`, and the chunk size is a parameter of the streamer.
- The undefined name `TingoDB` at line 36 is not modelled. It differs from `TingoDb` on line 2, so `opt` would throw. It is part of `opt`.
- `_getCollection` and `_ensureIndex` are calls into the database driver, so they are left out. Collection handles and index creation do not appear.
- The cursor and bulk-operation objects are abstract. A cursor is its event sequence. A bulk group is the sequence of its upserts. An execution is one `Completion` value.
- The limit of one document on a field query is not enforced on the cursor's events.
- A group's size in the model is the length of its upsert sequence. It stands for the driver's `_currCmd.updates.length`, and the model does not capture a driver that splits a bulk operation internally.
- Asynchrony and event-loop timing are left out. Completions are processed one after another, in any order given.
- `Object.keys` lists integer-like keys first. The model keeps insertion order instead, which only affects the order of `execute` calls.
- `substr` counts UTF-16 code units. The model counts Dafny characters.
- Error objects become `Option<string>`, and documents and values are opaque type parameters.
- The `gun-flint` `KeyValAdapter` wrapper and the Gun engine's stream internals are not modelled.
- WriteBatch.GroupsBounded: requires that no two nodes of the batch share a group key at any iteration. `GroupsBoundedUpTo` needs this only up to the iterations reached, and `StringGroupsBounded` discharges it for the source's key below 10000 records per node. The source's key can break the 1000 bound only from 10001 records of one node on: that node's 10001st record is its first push at iteration 11 (see Findings). The premise of `StringGroupsBounded` stops one record short of that, at fewer than 10000.
- WriteBatch.FewRecordsOneGroup: requires distinct group keys only up to iteration m, with fewer than 1000·m records per node, for the same reason. With the source's key m = 10 meets it.
- WriteBatch.OverLimitSpansTwoGroups: requires the same as `FewRecordsOneGroup`, with m >= 2, for the same reason.
- GunTingo.Put: states the corrected behaviour (pair group keys, error aggregated over all completions), not the source's. `GunTingo.PutAsWritten` states the source's behaviour.
- `track` (line 154) is a plain object `{}`, so a node key such as `"constructor"` or `"toString"` first finds an inherited property instead of no entry, and `"__proto__"` never becomes an own key: its iteration stays the prototype object, and the increment at line 168 has no effect. The model's `track` map starts empty and holds every key, so it does not capture these keys. With `"__proto__"` every record of that node reaches the same group, which can exceed 1000.
- At `end` (line 131) the live `buffer` array goes to the engine without being reset. The model emits a copy of the values and does not capture aliasing. No `data` event follows `end` on the driver's cursor (only `close` does), so nothing writes to that buffer afterwards.
