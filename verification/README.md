# Save batching in Spring Data Relational, modelled in Dafny

This project models `SaveBatchingAggregateChange`. That is the engine Spring Data
Relational uses to merge the database actions of several aggregate saves into a
single action stream, with batches. The engine gets one `RootAggregateChange`
per aggregate through `add`. Each change yields primitive actions:

- `InsertRoot` and `UpdateRoot` for the aggregate root;
- `Insert` for a child entity at a property path;
- `Delete` for the child rows at a property path;
- other kinds, which the engine ignores.

The engine keeps four accumulators:

- finished root actions;
- the pending InsertRoot batch candidates;
- a map from path to IdValueSource to child Inserts;
- a map from path to Deletes.

`forEachAction` hands the merged sequence to a consumer in this order:

1. The root actions, then the final flush of the candidates.
2. The delete groups, deepest path first. A group of two or more becomes a `BatchDelete`; a single Delete goes out unwrapped.
3. The insert groups, shallowest path first. Each (path, IdValueSource) pair becomes one `BatchInsert`, even when it holds one Insert.

The flush rule is the same every time. Two or more candidates become one `BatchInsertRoot`. One candidate goes out unwrapped. An `UpdateRoot` always flushes. An `InsertRoot` flushes only when its IdValueSource differs from that of the pending candidates.

The model is functional:

- `State` is a record of the four accumulators.
- `AddAction` is the body of `add` for one action, and `Add` is a fold of it over one change.
- `AddAll` is one `add` per change.
- `ForEachAction` returns the sequence the consumer would receive.
- The Java hash maps are association lists (`AssocList`) whose keys stay in first-seen order. `AppendAt` is `Map.merge` on a map of lists.
- Sorting by path length is a stable insertion sort (`DepthOrder`). Only its length order is relied on.

The modules:

- `Actions`: the action family, flattening of batches, and selectors that pick the actions of one grouping key.
- `AssocList`, `DepthOrder`: the map and the comparator.
- `SaveBatching`: the state, the operations, and the invariant `Valid`.
- `Accumulation`: what `add` keeps (the invariant) and what it records (per-key lists).
- `Draining`: what `forEachAction` emits from a valid state.
- `RootBatching`: a grouping of root actions into maximal runs is unique.
- `Theorems`: the guarantees of a whole save, stated against the input actions alone.
- `Scenarios`: worked saves.

Unlike a single Delete or InsertRoot, a single child Insert is still wrapped in a `BatchInsert` (`SaveBatchingAggregateChange.java:90-91`); see `Theorems.InsertGrouping`.

## Model

| member | source | states |
|---|---|---|
| SaveBatching.Collapse | spring-data-relational/src/main/java/org/springframework/data/relational/core/conversion/SaveBatchingAggregateChange.java:126-134 | Flushing emits exactly the candidates, in order, as at most one emission. If all candidates share one IdValueSource, that emission is a well-formed root emission: a BatchInsertRoot only for two or more. |
| SaveBatching.CombineBatchCandidates | spring-data-relational/src/main/java/org/springframework/data/relational/core/conversion/SaveBatchingAggregateChange.java:122-134 | A flush keeps the earlier root actions as a prefix and appends at most one emission: none when there are no candidates, else one. Flattened, that emission is exactly the old candidates. When the candidates share one IdValueSource it is a well-formed root emission, so it is a BatchInsertRoot for two or more and the lone InsertRoot, unwrapped, for one. The candidate list ends empty, and neither map changes. |
| SaveBatching.AddInsert | spring-data-relational/src/main/java/org/springframework/data/relational/core/conversion/SaveBatchingAggregateChange.java:136-147 | The Insert goes at the end of the list under its path and IdValueSource. A new path gets the entry path -> source -> [insert] at the end. No other path's entry changes and no key moves. |
| AssocList.AppendAt | spring-data-relational/src/main/java/org/springframework/data/relational/core/conversion/SaveBatchingAggregateChange.java:150-157 | `merge` on a map of lists appends to the list under the key, or creates the entry on first use. Other keys keep their lists, and the key count grows only for a new key. |
| SaveBatching.AddAction | spring-data-relational/src/main/java/org/springframework/data/relational/core/conversion/SaveBatchingAggregateChange.java:97-119 | The body of `add` for one action; no contract of its own. `Accumulation.AddActionRoots`, `Accumulation.AddActionDeletes` and `Accumulation.AddActionInserts` state what it records, and `Accumulation.AddActionKeepsValid` states what it preserves. |
| Accumulation.AddActionRoots | spring-data-relational/src/main/java/org/springframework/data/relational/core/conversion/SaveBatchingAggregateChange.java:99-110 | After one action, the flattened root actions plus the candidates are the old ones followed by the action itself if it is an InsertRoot or UpdateRoot, and unchanged otherwise. |
| Accumulation.AddActionDeletes | spring-data-relational/src/main/java/org/springframework/data/relational/core/conversion/SaveBatchingAggregateChange.java:115-117 | After one action, the Deletes under each path are the old ones, plus the action at the end if it is a Delete on that path. |
| Accumulation.AddActionInserts | spring-data-relational/src/main/java/org/springframework/data/relational/core/conversion/SaveBatchingAggregateChange.java:111-114 | After one action, the Inserts under each path and IdValueSource are the old ones, plus the action at the end if it is an Insert with that key. |
| SaveBatching.Add | spring-data-relational/src/main/java/org/springframework/data/relational/core/conversion/SaveBatchingAggregateChange.java:94-120 | `add` for one change, a fold of `AddAction` over its actions in order; no contract of its own. `Accumulation.AddRoots`, `Accumulation.AddDeletes`, `Accumulation.AddInserts` and `Accumulation.AddKeepsValid` state its behaviour. |
| SaveBatching.AddAll | spring-data-relational/src/main/java/org/springframework/data/relational/core/conversion/SaveBatchingAggregateChange.java:94-120 | One `add` per change, in order; no contract of its own. `Accumulation.AddAllKeepsValid` and `Accumulation.AddAllIsAddOfJoin` state its behaviour, and `Theorems.EngineAccumulates` states what the accumulators hold after a whole save. |
| Accumulation.AddKeepsValid | spring-data-relational/src/main/java/org/springframework/data/relational/core/conversion/SaveBatchingAggregateChange.java:94-120 | One `add` call keeps the invariant, whatever the change. |
| SaveBatching.ForEachAction | spring-data-relational/src/main/java/org/springframework/data/relational/core/conversion/SaveBatchingAggregateChange.java:71-92 | `forEachAction`: the root section (the root actions, then the final flush), the delete section and the insert section, concatenated; no contract of its own. The `Draining.ForEachAction*` lemmas state its behaviour for any valid state, and the `Theorems` lemmas state it for a whole save. |
| SaveBatching.DeleteGroupActions | spring-data-relational/src/main/java/org/springframework/data/relational/core/conversion/SaveBatchingAggregateChange.java:83-88 | One delete group flattens back to its Deletes and yields one emission. For Deletes on one path, that emission is a well-formed BatchDelete of two or more, or a plain Delete. |
| DepthOrder.SortByDepth | spring-data-relational/src/main/java/org/springframework/data/relational/core/conversion/SaveBatchingAggregateChange.java:42-43 | The path-length comparator (reversed for deletes) orders the entries by path length and permutes them. |
| DepthOrder.SortByDepthKeepsValues | spring-data-relational/src/main/java/org/springframework/data/relational/core/conversion/SaveBatchingAggregateChange.java:81 | Sorting the entry set keeps, for every path, the list stored under it. |
| Accumulation.AddActionKeepsValid | spring-data-relational/src/main/java/org/springframework/data/relational/core/conversion/SaveBatchingAggregateChange.java:97-119 | Each branch of `add` keeps the invariant. Finished root emissions are well formed, and adjacent InsertRoot emissions differ in IdValueSource. The candidates share one source. Each map has unique keys, and every list in it is non-empty and on its key. |
| Accumulation.AddAllKeepsValid | spring-data-relational/src/main/java/org/springframework/data/relational/core/conversion/SaveBatchingAggregateChange.java:94-120 | Any number of `add` calls keeps the invariant. |
| Accumulation.AddRoots | spring-data-relational/src/main/java/org/springframework/data/relational/core/conversion/SaveBatchingAggregateChange.java:99-110 | After one change, the flattened root actions plus the candidates are the old ones followed by the change's InsertRoots and UpdateRoots, in order. |
| Accumulation.AddDeletes | spring-data-relational/src/main/java/org/springframework/data/relational/core/conversion/SaveBatchingAggregateChange.java:115-117 | For every path, the Deletes recorded under it gain exactly the change's Deletes on that path, in order. |
| Accumulation.AddInserts | spring-data-relational/src/main/java/org/springframework/data/relational/core/conversion/SaveBatchingAggregateChange.java:111-114 | For every path and IdValueSource, the recorded Inserts gain exactly the change's Inserts with that key, in order. |
| Accumulation.AddAllIsAddOfJoin | spring-data-relational/src/main/java/org/springframework/data/relational/core/conversion/SaveBatchingAggregateChange.java:95-97 | Adding changes one by one equals adding their concatenation: change boundaries do not affect batching. |
| Draining.ForEachActionShape | spring-data-relational/src/main/java/org/springframework/data/relational/core/conversion/SaveBatchingAggregateChange.java:75-91 | From a valid state, every emitted action is a primitive root action or Delete, or a well-formed batch. |
| Draining.ForEachActionOrdered | spring-data-relational/src/main/java/org/springframework/data/relational/core/conversion/SaveBatchingAggregateChange.java:75-91 | Flattened, the emission has root actions first, then Deletes by non-increasing path length, then Inserts by non-decreasing path length. |
| Draining.ForEachActionMaximalRootBatches | spring-data-relational/src/main/java/org/springframework/data/relational/core/conversion/SaveBatchingAggregateChange.java:75-80 | The final flush never puts two InsertRoot emissions with the same IdValueSource next to each other. |
| Draining.ForEachActionDeleteGroups | spring-data-relational/src/main/java/org/springframework/data/relational/core/conversion/SaveBatchingAggregateChange.java:81-89 | Per path, the emitted Delete or BatchDelete is the collapse of that path's recorded Deletes. |
| Draining.ForEachActionInsertGroups | spring-data-relational/src/main/java/org/springframework/data/relational/core/conversion/SaveBatchingAggregateChange.java:90-91 | Per path and IdValueSource, exactly one BatchInsert is emitted, holding the recorded Inserts (none if none were recorded). |
| Draining.ForEachActionFlattened | spring-data-relational/src/main/java/org/springframework/data/relational/core/conversion/SaveBatchingAggregateChange.java:71-92 | Flattened, the emission holds the recorded root actions and candidates in order, and the recorded Deletes and Inserts of every key. It holds no other kind. |
| RootBatching.RootRunsUnique | spring-data-relational/src/main/java/org/springframework/data/relational/core/conversion/SaveBatchingAggregateChange.java:103-108 | Suppose two sequences of root emissions flatten to the same actions, and neither has adjacent InsertRoot emissions of one IdValueSource. Then they are equal. |
| Theorems.RootOrderKept | spring-data-relational/src/main/java/org/springframework/data/relational/core/conversion/SaveBatchingAggregateChange.java:99-102 | Because an UpdateRoot flushes first, InsertRoots and UpdateRoots come out in exactly their input order. |
| Theorems.RootBatchesAreMaximalRuns | spring-data-relational/src/main/java/org/springframework/data/relational/core/conversion/SaveBatchingAggregateChange.java:99-108 | The root part of the output is the one grouping of the input's root actions into maximal runs of one IdValueSource. Nothing after it is a root action. |
| Theorems.RootRunsExist | spring-data-relational/src/main/java/org/springframework/data/relational/core/conversion/SaveBatchingAggregateChange.java:99-108 | For every input, some grouping of its InsertRoots and UpdateRoots into root runs flattens back to them in order, so `Theorems.RootBatchesAreMaximalRuns` is never vacuous. |
| Theorems.DeleteGrouping | spring-data-relational/src/main/java/org/springframework/data/relational/core/conversion/SaveBatchingAggregateChange.java:81-89 | The input's Deletes on one path come out as one BatchDelete if there are two or more, or as the lone Delete. |
| Theorems.InsertGrouping | spring-data-relational/src/main/java/org/springframework/data/relational/core/conversion/SaveBatchingAggregateChange.java:90-91 | The input's Inserts with one path and IdValueSource come out as exactly one BatchInsert, even a single Insert, in input order. |
| Theorems.Conservation | spring-data-relational/src/main/java/org/springframework/data/relational/core/conversion/SaveBatchingAggregateChange.java:97-119 | The flattened output is a permutation of the input's InsertRoot, UpdateRoot, Insert and Delete actions. Every other kind is dropped. |
| Theorems.PhasesOrdered | spring-data-relational/src/main/java/org/springframework/data/relational/core/conversion/SaveBatchingAggregateChange.java:75-91 | For a whole save: roots, then Deletes deepest path first, then Inserts shallowest path first. |
| Theorems.BatchesWellFormed | spring-data-relational/src/main/java/org/springframework/data/relational/core/conversion/SaveBatchingAggregateChange.java:76-91 | Every emitted batch is homogeneous. InsertRoot batches have one IdValueSource, Delete batches one path, Insert batches one path and IdValueSource. Root batches are maximal. |
| Scenarios.RootInterleaving | spring-data-relational/src/main/java/org/springframework/data/relational/core/conversion/SaveBatchingAggregateChange.java:99-108 | Input InsertRoot A, InsertRoot B, UpdateRoot C, InsertRoot D (A, B and D Generated) gives exactly BatchInsertRoot [A, B], C, D. |
| Scenarios.MixedIdSources | spring-data-relational/src/main/java/org/springframework/data/relational/core/conversion/SaveBatchingAggregateChange.java:105-107 | InsertRoots with a Generated and a Provided IdValueSource come out as two separate InsertRoots. |
| Scenarios.DeleteScenario | spring-data-relational/src/main/java/org/springframework/data/relational/core/conversion/SaveBatchingAggregateChange.java:81-89 | A two-change save with Deletes on paths `a` (one) and `a.b` (two) gives BatchDelete of the two deeper ones first, then the lone shallow Delete unwrapped. |
| Scenarios.InsertScenario | spring-data-relational/src/main/java/org/springframework/data/relational/core/conversion/SaveBatchingAggregateChange.java:90-91 | Inserts on paths `a.b` (Provided) and `a` (Generated), plus an ignored kind, give one BatchInsert per path, shallowest first, each holding a single Insert; the ignored kind is dropped. |

## Left out

- The null check on the consumer (line 73) and the `Consumer` plumbing are left out. `ForEachAction` returns the sequence the consumer would receive. A null argument cannot be expressed in the model.
- `forEachAction` does not mutate state, and calling it twice gives the same output. Both hold by construction, since `ForEachAction` is a pure function of the state. No lemma states them.
- `getKind`, `getEntityType` and the constructor (lines 56-68) only carry the entity class, which batching never reads.
- `RootAggregateChange.forEachAction` is not part of this model. A change is the sequence of actions it yields, in order.
- Entities and root ids are opaque numbers, and property paths are sequences of property names. Persistent-property metadata is not modelled.
- The order among delete or insert groups whose paths have equal length is not promised: it comes from `HashMap` iteration (lines 52-54). The same holds for the order among IdValueSource sub-groups of one path. The model keeps first-seen order there. Every lemma either states a property per key or states only the length order.
- `DepthOrder.SortByDepth`: the contract states the length order and the permutation, not the tie order, for the reason above.
- Java aliasing is not modelled. The final `BatchInsertRoot` at line 77, the `BatchDelete` at line 85 and the `BatchInsert` at line 91 wrap the live lists of the engine, while line 129 wraps a copy. In a value model all of them are plain values.
- SQL generation and the other action kinds' execution are not part of this model.
