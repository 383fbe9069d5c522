# Dimensional counters and per-thread metric batching, in Dafny

This project models the two counting cores of a metrics benchmark crate.

- **Dimensional metric identities and `MetricStore`** (src/dimensions.rs).
  - A borrowed identity (`MetricName`) is a static key plus five optional `(label name, label value)` slots.
  - It is converted once into an owned identity (`OwnedMetricName`). Each present slot of the owned identity also carries the value's `u64` surrogate (`as_u64`) and a boxed copy of the value.
  - The store is a hash map from owned identities to counts. It is probed with borrowed identities through hashbrown's raw-entry API.
  - Two contracts make the design work, and both are proved here:
    - The borrowed and owned `Hash` implementations feed the hasher the same writes.
    - Equality is weak: it compares the key, slot presence, label name and surrogate, and never the boxed value.
- **`Snapshot` and `MetricsContext`** (src/metrics.rs).
  - A snapshot is a mutable map from `MetricKey` to `MetricValue`.
  - The context counts increments, records each one into its snapshot and, on every 50 000th call, sends a copy of the snapshot to a channel and zeroes the live values in place.

Files:

- `dimensions.dfy`, module `Dimensions`:
  - label values, borrowed and owned identities, their constructors and conversion;
  - the two weak equalities (`Eq` for owned against borrowed, `Same` for owned against owned);
  - a `Hasher` class that records its writes, the three hash routines, and `compute_hash`.
- `store.dfy`, module `Store`:
  - `MetricStore` as a class over a sequence of entries;
  - the value-level specification of every store operation and lemmas about it;
  - the `one_dimension` test.
- `metrics.dfy`, module `Metrics`:
  - `MetricValue`, `Counter`;
  - the `Snapshot` class and the map functions that specify it;
  - the channel as an append-only outbox, the `MetricsContext` class and the `do_work` loop body.

Modelling choices:

- `dyn LabelValue` becomes the datatype `LabelValue = Helper(HelperIdentity) | Other(surrogate, display)`.
  - `HelperIdentity` is the only implementor in the repository.
  - `Other` stands for any other implementor. It is given by the surrogate it reports and an opaque display token.
  - A boxed copy (`boxed()`) is the value itself.
  - `as_u64` is a function of the value, so each label value reports one fixed surrogate, whenever and however often it is asked.
- Strings stand for their byte encodings (`as_bytes` is injective).
- A `BuildHasher` holds an arbitrary total function from the list of hasher writes to a `u64`. Only the determinism of that function is used.
- The hash map is a sequence of entries whose names are pairwise not `same`.
  - Its probe (`raw_entry*.from_hash(hash, cmp)`) becomes a linear scan. The scan skips entries whose stored hash differs, then applies the comparator.
  - `FindByEq` and `FindBySame` prove that the hash filter never changes which entry is found.
- `Cell` and `RefCell` fields are plain mutable fields.
  - The `RefCell` panic of `Snapshot::merge(self)` becomes the precondition `other != this`.
  - The `unwrap` of the sender becomes a precondition that holds only when the call flushes.
- Flushing:
  - The context flushes when `increments % 50000 == 0` (src/metrics.rs:30).
  - It sends a clone, then zeroes the values in place and keeps the keys (src/metrics.rs:31-32, 89-91).
  - src/main.rs calls `take_snapshot` and `is_empty`, which src/metrics.rs does not define.

## Model

| member | source | states |
|---|---|---|
| Dimensions.HelperAsU64 | src/dimensions.rs:257-264 | `as_u64` of a helper is its discriminant, below 3 |
| Dimensions.HelperAsU64Injective | src/dimensions.rs:257-264 | H1, H2 and H3 have pairwise distinct surrogates (0, 1, 2): equal surrogates iff equal helpers |
| Dimensions.AsU64 | src/dimensions.rs:8-9 | the trait method dispatches on the implementor: a helper reports a surrogate below 3, any other implementor reports its own surrogate |
| Dimensions.WithNoLabels | src/dimensions.rs:20-25 | keeps the key and leaves all five slots empty |
| Dimensions.WithOneLabel | src/dimensions.rs:30-46 | keeps the key, puts `(label_name, value)` in slot 0 and leaves slots 1-4 empty |
| Dimensions.FromTuple | src/dimensions.rs:226-233 | the tuple conversion builds the same identity as `with_one_label` on the tuple's parts |
| Dimensions.CloneIntoOwned | src/dimensions.rs:50-57 | keeps the key, slot presence and every label name; each present slot's surrogate is `as_u64()` of its value and its copy is that value |
| Dimensions.Clone | src/dimensions.rs:90-96 | the clone is identical to the original (key, names, surrogates, values) and hence `same` as it |
| Dimensions.Eq | src/dimensions.rs:134-153 | `&owned == borrowed` implies equal keys, the same slots present and equal label names in every present slot (the full characterisation is `EqIff`) |
| Dimensions.EqIff | src/dimensions.rs:134-153 | `&owned == borrowed` iff keys are equal and, slot by slot, both are empty or both present with equal name and surrogate (the value is never compared) |
| Dimensions.AllSlotsEqIff | src/dimensions.rs:140-151 | the `zip(..).all(..)` over slots holds iff every slot pair matches |
| Dimensions.Same | src/dimensions.rs:99-109 | `same` implies equal keys, the same slots present and equal label names in every present slot (the full characterisation is `SameIff`) |
| Dimensions.SameIff | src/dimensions.rs:99-109 | `same` iff keys are equal and, slot by slot, both are empty or both present with equal name and surrogate |
| Dimensions.AllSlotsSameIff | src/dimensions.rs:101-107 | the `zip(..).all(..)` in `same` holds iff every slot pair matches |
| Dimensions.SameReflexive | src/dimensions.rs:99-109 | every owned identity is `same` as itself |
| Dimensions.SameSymmetric | src/dimensions.rs:99-109 | `same(a, b)` iff `same(b, a)` |
| Dimensions.SameTransitive | src/dimensions.rs:99-109 | `same` is transitive |
| Dimensions.CloneIntoOwnedEq | src/dimensions.rs:50-57 | the owned conversion of `m` is equal to `m` |
| Dimensions.SameCloneIffEq | src/dimensions.rs:99-109 | an owned identity is `same` as the conversion of `m` iff it is equal to `m` |
| Dimensions.EqEqSame | src/dimensions.rs:134-153 | two owned identities equal to one borrowed identity are `same` |
| Dimensions.EqRespectsSame | src/dimensions.rs:134-153 | equality to a borrowed identity gives the same answer on `same` owned identities |
| Dimensions.EqTransfer | src/dimensions.rs:134-153 | an entry equal to `key` equals `q` iff the conversion of `key` equals `q` |
| Dimensions.HelperLabelsNeverCollide | src/dimensions.rs:226-264 | two `("k", ("l", &h))` identities match (owned against borrowed) iff the helpers are the same |
| Dimensions.SurrogateCollisionConflates | src/dimensions.rs:143-148 | any two label values with equal surrogates are treated as equal, whatever they display |
| Dimensions.Hasher.constructor | src/dimensions.rs:220 | `build_hasher()` gives a hasher that has received no writes |
| Dimensions.Hasher.Write | src/dimensions.rs:60-65 | `write(bytes)` appends exactly one byte write |
| Dimensions.Hasher.WriteU64 | src/dimensions.rs:60-65 | `write_u64(n)` appends exactly one integer write |
| Dimensions.ComputeLabelHash | src/dimensions.rs:60-65 | an empty slot writes nothing; a present one writes its name bytes, then `as_u64()` of its value |
| Dimensions.HashMetricName | src/dimensions.rs:67-83 | writes the key bytes, then the writes of the five slots in order |
| Dimensions.HashOwnedMetricName | src/dimensions.rs:121-131 | writes the key bytes, then for each present slot in order its name bytes and stored surrogate |
| Dimensions.ComputeHashBorrowed | src/dimensions.rs:219-223 | `compute_hash` of a borrowed identity is the builder's hash of its write list |
| Dimensions.ComputeHashOwned | src/dimensions.rs:219-223 | `compute_hash` of an owned identity is the builder's hash of its write list |
| Dimensions.EqImpliesSameTrace | src/dimensions.rs:60-131 | an owned identity equal to a borrowed one makes exactly the same hasher writes |
| Dimensions.SameImpliesSameTrace | src/dimensions.rs:120-131 | `same` owned identities make exactly the same hasher writes |
| Dimensions.OwnedSlotsTraceStep | src/dimensions.rs:124-129 | one more slot of the owned loop appends exactly that slot's writes |
| Dimensions.OwnedSlotsTraceUnrolled | src/dimensions.rs:124-129 | the owned slot loop makes the writes of slots 0 to 4 in order |
| Dimensions.OwnedSlotsTraceCongruent | src/dimensions.rs:124-129 | slot lists that match pairwise produce the same writes |
| Dimensions.HashConsistency | src/dimensions.rs:60-131 | a borrowed identity and its owned conversion make the same writes, so `compute_hash` agrees on them under every builder |
| Dimensions.NoLabelsTrace | src/dimensions.rs:20-25 | an identity without labels hashes as its key bytes alone |
| Store.FindFirst | src/dimensions.rs:187 | the probe returns the first entry whose name passes the comparator, and `None` iff no entry passes |
| Store.FindEqUnique | src/dimensions.rs:187 | when keys are unique, an entry equal to the key is the one the probe finds |
| Store.LookupMeaning | src/dimensions.rs:198-202 | when keys are unique, `get_counter` is `None` iff no entry equals the key, else the count of the equal entry |
| Store.UpdateKeepsDistinct | src/dimensions.rs:184-195 | `update` keeps the entries pairwise not `same` |
| Store.UpdateHit | src/dimensions.rs:188-190 | on a hit only the equal entry changes, its count grows by `val`, and nothing is inserted |
| Store.UpdateMiss | src/dimensions.rs:191-193 | on a miss exactly one entry, `(clone_into_owned(key), val)`, is appended |
| Store.LookupAfterUpdate | src/dimensions.rs:184-202 | after `update(key, val)` an identity equal to `key` reads its old count (0 if absent) plus `val`; every other identity reads what it read before |
| Store.LookupAfterUpdateSame | src/dimensions.rs:184-202 | after an update, reading the updated identity gives its old count plus `val` |
| Store.LookupAfterUpdateOther | src/dimensions.rs:184-202 | an update leaves the reading of every other identity unchanged |
| Store.FindFirstNamesOnly | src/dimensions.rs:189 | changing counts does not change what the probe finds |
| Store.FindFirstAppend | src/dimensions.rs:192 | appending an entry changes a probe's result only if nothing matched before |
| Store.TotalAppend | src/dimensions.rs:192 | appending an entry adds its count to every selection that contains it |
| Store.TotalConcat | src/dimensions.rs:205-212 | the total over a concatenation of entry lists is the sum of their totals |
| Store.TotalRemoveAt | src/dimensions.rs:205-212 | removing one entry takes away exactly its share of a total |
| Store.TotalPerm | src/dimensions.rs:205-212 | a total over entries is the same for every ordering of them, so the hash map's iteration order cannot change `get_counter_all_dim` |
| Store.TotalReplaceCount | src/dimensions.rs:189 | changing one entry's count changes a selected total by the difference |
| Store.UpdateTotal | src/dimensions.rs:184-195 | `update` adds `val` to every `same`-respecting total that contains the key |
| Store.KeySumAfterUpdate | src/dimensions.rs:184-216 | after `update(key, val)` the all-dimensions sum of `key`'s metric key has grown by `val`, others are unchanged |
| Store.MergeEntryKeepsDistinct | src/dimensions.rs:176-182 | folding in one entry keeps the keys pairwise not `same` |
| Store.MergeKeepsDistinct | src/dimensions.rs:176-182 | `merge` keeps the keys pairwise not `same` |
| Store.MergeEntryTotal | src/dimensions.rs:178-180 | folding in one entry adds its count to every `same`-respecting total that contains it |
| Store.MergeTotal | src/dimensions.rs:176-182 | every `same`-respecting total after `merge` is the sum of the two stores' totals |
| Store.MergeCounts | src/dimensions.rs:176-182 | after `merge` the count of each identity is its count in `self` plus its count in `other` |
| Store.LookupAfterMergeEntry | src/dimensions.rs:177-180 | after one merge step, `get_counter` of an identity equal to the entry's key reads its old count (0 when absent) plus the entry's count, present even when that count is 0; every other identity reads as before |
| Store.LookupAfterMerge | src/dimensions.rs:176-182 | after `merge`, `get_counter(q)` counts `q`'s old count plus the counts of the entries of `other` equal to `q`, and is `Some` exactly when `q` was present before or some entry of `other` equals it |
| Store.MergeInsertsZero | src/dimensions.rs:180 | merging an entry with count 0 into an empty store makes `get_counter` of its identity read `Some(0)`, not `None` (`or_insert_with` inserts `(k, 0)` first) |
| Store.KeySumAfterMerge | src/dimensions.rs:176-216 | after `merge` the all-dimensions sum of every key is the sum of the two stores' sums |
| Store.MergeTotalPerm | src/dimensions.rs:175-182 | the totals after `merge` are the same whatever order either map's entries are iterated in |
| Store.MergeOrderIrrelevant | src/dimensions.rs:176-182 | merging `b` then `c` gives each identity the same count as merging `c` then `b` |
| Store.MergeKeepsExisting | src/dimensions.rs:176-182 | `merge` keeps every existing key object in place (it is never replaced) and leaves untouched the counts of entries `other` does not match |
| Store.MetricStore.constructor | src/dimensions.rs:155-172 | a default store is empty and uses the given hash builder |
| Store.MetricStore.FindByEq | src/dimensions.rs:187 | the hash-then-`eq` probe finds exactly the first equal entry: the hash filter never hides a match |
| Store.MetricStore.FindBySame | src/dimensions.rs:178-180 | the hash-then-`same` probe finds exactly the first `same` entry |
| Store.MetricStore.Update | src/dimensions.rs:184-195 | the new entries are those of the `update` specification, and keys stay pairwise not `same` |
| Store.MetricStore.GetCounter | src/dimensions.rs:198-202 | returns the count of the entry equal to the key, or `None` |
| Store.MetricStore.GetCounterAllDim | src/dimensions.rs:204-216 | `None` iff no entry has the key, else the sum of the counts over all entries with that key (any labels, zero counts included) |
| Store.MetricStore.FoldIn | src/dimensions.rs:178-180 | one loop step of `merge`: the new entries are those of the one-entry merge specification, and keys stay pairwise not `same` |
| Store.MetricStore.Merge | src/dimensions.rs:176-182 | the new entries fold in every entry of `other` in order, and keys stay pairwise not `same` |
| Store.FindEqOne | src/dimensions.rs:187 | on a one-entry map the probe finds the entry iff it is equal to the key |
| Store.FindEqTwo | src/dimensions.rs:187 | on a two-entry map the probe finds the first entry equal to the key, or nothing |
| Store.RecordBoth | src/dimensions.rs:279-286 | recording H1 then H2 with 0 into an empty store leaves exactly the two converted entries with count 0 |
| Store.RecordIncrements | src/dimensions.rs:289-293 | recording H1 with 0, 1, ..., 9 raises its entry from 0 to 45 and leaves H2's entry alone |
| Store.RecordOneDimension | src/dimensions.rs:279-295 | after the test's updates the store holds exactly H1 with 45 and H2 with 3 |
| Store.OneDimension | src/dimensions.rs:277-303 | the test's three `get_counter` calls return `Some(45)`, `Some(3)` and `None`, under every hash builder |
| Metrics.Add | src/metrics.rs:47-53 | the sum's value is the sum of the values |
| Metrics.IntoMetric | src/metrics.rs:77-81 | the metric value carries the counter's count |
| Metrics.IntoMetricIgnoresName | src/metrics.rs:77-81 | two counters make the same metric iff their counts are equal, whatever their names |
| Metrics.IncrementedMeaning | src/metrics.rs:93-96 | an increment creates the key at the default if needed and adds the value there |
| Metrics.IncrementIsMerge | src/metrics.rs:93-105 | incrementing is merging the one-entry map of the metric |
| Metrics.ClearedMeaning | src/metrics.rs:89-91 | `clear` keeps the key set and sets every value to 0 |
| Metrics.ClearIdempotent | src/metrics.rs:89-91 | clearing twice is clearing once |
| Metrics.MergedMeaning | src/metrics.rs:98-105 | after `merge` each key of `other` holds the old value (0 if absent) plus `other`'s value; keys only in `this` are unchanged |
| Metrics.PartlyMergedAll | src/metrics.rs:102-104 | folding every key of `other` completes the merge |
| Metrics.MergeCommutes | src/metrics.rs:98-105 | merging `o` into `m` gives the same map as merging `m` into `o` |
| Metrics.TotalMerged | src/metrics.rs:98-105 | merging adds the totals |
| Metrics.TotalIncremented | src/metrics.rs:93-96 | an increment raises the total by exactly its value |
| Metrics.TotalSentAppend | src/metrics.rs:31 | sending a snapshot adds its total to the outbox total |
| Metrics.FlushCount | src/metrics.rs:27-30 | one more increment completes one more block of 50 000 iff the new count is a multiple of 50 000 |
| Metrics.Snapshot.constructor | src/metrics.rs:85-87 | a new snapshot is empty |
| Metrics.Snapshot.Clear | src/metrics.rs:89-91 | the new map is the cleared old map: same keys, all values 0 |
| Metrics.Snapshot.Increment | src/metrics.rs:93-96 | the new map is the old one incremented by the counter's metric |
| Metrics.Snapshot.Merge | src/metrics.rs:98-105 | the new map is the merge of the old one with `other`'s (which is not changed) |
| Metrics.Snapshot.Get | src/metrics.rs:107-109 | requires the key to be present; returns its value without changing the map |
| Metrics.Channel.Send | src/metrics.rs:31 | a send appends exactly the sent snapshot to the outbox |
| Metrics.MetricsContext.constructor | src/metrics.rs:14-20 | starts with 0 increments, an empty snapshot and no sender |
| Metrics.MetricsContext.Connect | src/metrics.rs:36-38 | replaces any previous sender and changes nothing else |
| Metrics.MetricsContext.Increment | src/metrics.rs:26-34 | raises `increments` by 1; sends exactly one snapshot, then zeroes the live values, iff the new count is a multiple of 50 000; keeps one send per completed block of 50 000 and keeps sent plus live equal to everything recorded |
| Metrics.DoWork | src/metrics.rs:120-131 | after connecting and recording `iter` counters of 1, the outbox has gained one snapshot per multiple of 50 000 passed; those snapshots are exactly the ones the context flushed, in order, so (with the context's invariant) everything recorded is either sent or still live |
| Metrics.AfterFlushAllZero | src/metrics.rs:31-32 | right after a flush every live value is 0 and the keys are kept |

## Left out

- src/main.rs is not part of this model. It is the runtime, thread, argument-parsing and timing plumbing, and it calls `take_snapshot`, `is_empty`, `do_work_async` and an `Option`-returning `get`, none of which exist in src/metrics.rs.
- src/atomic.rs is not part of this model: a shared atomic counter whose point is concurrency.
- src/external_metrics.rs is not part of this model: a wrapper over an external crate's macro.
- Metrics.DoWork: the `thread_local!` context and the `yield_now().await` between increments are not modelled; one context object stands for the thread's.
- `MetricsContext::snapshot()` is a plain field read (the `snapshot` field) and has no member of its own.
- Dimensions.AsU64: an implementor whose `as_u64` answers differently from call to call is not modelled. The surrogate stored by `clone_into_owned` (src/dimensions.rs:55) is assumed to be the one hashing and comparison later compute from the borrowed value (src/dimensions.rs:63, 147). The trait does not enforce this; the design relies on label implementors to cooperate (src/dimensions.rs:144-146), and `HashConsistency` depends on it.
- `Debug` and `Display` formatting is not modelled.
- Concrete hash functions (FxHash, ahash and its seeds) and hashbrown's bucket layout are not modelled. The final hash is an arbitrary function of the writes.
- Iteration order of the hash maps is not modelled. Merge and the all-dimensions sum fold in sequence order. `TotalPerm` and `MergeTotalPerm` show that totals do not depend on that order; the order of entries in the merged sequence itself is not claimed to be order-free.
- The zero-allocation assertion of the `one_dimension` test (heap statistics) is not modelled. `UpdateHit` states that a hit inserts nothing.
- Store.MetricStore.Update, Store.MetricStore.Merge, Store.MetricStore.GetCounterAllDim, Metrics.Add, Metrics.Snapshot.Merge, Metrics.Snapshot.Increment, Metrics.MetricsContext.Increment: counts and increments are unbounded naturals. The `u64`/`usize` overflow, which panics in debug builds and wraps in release builds, is not modelled.
- Metrics.Channel.Send: a send always succeeds. The panic of `send(..).unwrap()` when the receiver is gone is not modelled.
- Store.MetricStore.Merge: Rust consumes `other` by move; the model reads its entries and leaves the object alone.
- The `Metric` trait is closed to its one implementor, `Counter`.
- The generic `LABELS` parameter is fixed at its default, 5, which is the only value the hash implementation for `MetricName` supports.
- Metrics.IncrementedMeaning: with one `MetricKey` value there is no other key, so "no other key changes" holds vacuously and is not stated.
