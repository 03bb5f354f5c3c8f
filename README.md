# StarRocks privilege sets, database privilege entries and pipeline-builder bookkeeping

This project models four small parts of StarRocks in Dafny and proves properties of them.

- **`PrivBitSet`** (front end). A set of privileges stored as one Java `long`, one bit per privilege. A grant's privileges are combined with or, and, xor and remove. They are queried with `get`, `satisfy` and the `contains*` scans, turned into and built from privilege lists, copied, and written to and read from a stream. The model is the class `PrivBitSets.PrivBitSet`. It holds the word as the set of its one-bit positions (module `Java`, type `Long`), so `|`, `&`, `^` and `~` become union, intersection, symmetric difference and complement within 64 bits. The `int` shift `1 << index` and the signed test `> 0` are modelled with Java's semantics: the shift distance is taken modulo 32, and distance 31 sign-extends.
- **`DbPrivEntry`** (front end). The privileges one user, from one host, holds on one database, or on every database through `*`. The model is the class `DbPrivEntries.DbPrivEntry`. It covers:
  - the validating factory `create`;
  - `analyse`, which sets the pattern and the any-database flag;
  - the order `compareTo`: host, then database, then user, each in reverse `String.compareTo` order;
  - `keyMatch`;
  - the field order of `write` and `readFields`.
- **`PipelineBuilderContext`** (back end). The state the pipeline builder threads through a fragment:
  - the list of built pipelines;
  - the pipeline and operator id counters, which count up as C++ `uint32_t` and so wrap at 2^32;
  - the pseudo plan-node id, which counts down as `int32_t`;
  - the fixed parallelism and stream flags, and the adaptive-DOP switch.

  It also includes the documented rule for when `maybe_interpolate_local_shuffle_exchange` places a local shuffle, and which partition expressions it uses. The model is the class `PipelineBuilders.PipelineBuilderContext` and the function `PipelineBuilders.LocalShuffleDecision`.
- **`BitmapSize`**. The number of bytes that hold a given number of bits, and the four sizes the bitmap unit test asserts.

Streams (`DataOutput`, `DataInput`) are modelled as sequences of typed values (`Streams.Datum`). Writing appends; reading takes values from the front. A read that meets the end of the input, or the wrong kind of value, fails with `IOException`. Java exceptions are results: `Java.Result` holds either `Ok(value)` or `Err(exception)`.

Privilege.java is not part of this model. The ten privileges and their indices are taken as NODE 0, ADMIN 1, GRANT 2, SELECT 3, LOAD 4, ALTER 5, CREATE 6, DROP 7, USAGE 8 and IMPERSONATE 9, so `Privilege.privileges.length` is 10. operator.h is not part of this model either. The first pseudo plan-node id, `Operator::s_pseudo_plan_node_id_upper_bound`, is taken as -100.

## Model

| member | source | states |
|---|---|---|
| Java.IntShiftLeftOne | fe/fe-core/src/main/java/com/starrocks/mysql/privilege/PrivBitSet.java:46 | `1 << index` widened to a long is the single bit `index` for 0 <= index < 31; for a shift distance of 31 (mod 32) it is bits 31..63, because the int result is negative and sign-extends |
| Java.CompareStrings | fe/fe-core/src/main/java/com/starrocks/mysql/privilege/DbPrivEntry.java:103 | `String.compareTo`: the difference of the first differing characters, else of the lengths; zero for equal strings and only for strings of equal length |
| Java.CompareStringsAntisymmetric | fe/fe-core/src/main/java/com/starrocks/mysql/privilege/DbPrivEntry.java:103-113 | `a.compareTo(b)` is exactly the negation of `b.compareTo(a)` |
| Java.CompareStringsZeroIff | fe/fe-core/src/main/java/com/starrocks/mysql/privilege/DbPrivEntry.java:103-113 | `String.compareTo` is zero exactly for equal strings |
| Java.CompareStringsTransitive | fe/fe-core/src/main/java/com/starrocks/mysql/privilege/DbPrivEntry.java:103-113 | `String.compareTo` orders strings transitively |
| Streams.ReadLong | fe/fe-core/src/main/java/com/starrocks/mysql/privilege/PrivBitSet.java:169-171 | `readLong` succeeds exactly when a long is next; it returns that long and leaves the rest of the input; otherwise it throws IOException |
| Streams.ReadString | fe/fe-core/src/main/java/com/starrocks/mysql/privilege/DbPrivEntry.java:154 | `readString` succeeds exactly when a string is next; it returns that string and the rest; otherwise it throws IOException |
| PrivBitSets.PrivBitSet.constructor | fe/fe-core/src/main/java/com/starrocks/mysql/privilege/PrivBitSet.java:39-42 | a new set holds no privilege |
| PrivBitSets.PrivBitSet.Set | fe/fe-core/src/main/java/com/starrocks/mysql/privilege/PrivBitSet.java:44-47 | an index of at least the number of privileges fails the state check with IllegalStateException and leaves the word; otherwise the word gains the bit(s) of `1 << index`, and for a privilege index exactly that bit is added and every other bit is kept |
| PrivBitSets.PrivBitSet.Unset | fe/fe-core/src/main/java/com/starrocks/mysql/privilege/PrivBitSet.java:49-52 | an index past the privileges fails with IllegalStateException and leaves the word; as written, every other index makes `set &= ~set` leave the word empty |
| PrivBitSets.UnsetAsWritten | fe/fe-core/src/main/java/com/starrocks/mysql/privilege/PrivBitSet.java:51 | the word `set & ~set` is empty for every word and index |
| PrivBitSets.UnsetIntended | fe/fe-core/src/main/java/com/starrocks/mysql/privilege/PrivBitSet.java:49-52 | `set & ~(1 << index)` removes exactly the bit `index` for a privilege index |
| PrivBitSets.PrivBitSet.UnsetCorrected | fe/fe-core/src/main/java/com/starrocks/mysql/privilege/PrivBitSet.java:49-52 | the same state check as `unset`; the intended `unset` then clears exactly the bit of a privilege index and keeps every other bit |
| PrivBitSets.UnsetAsWrittenDropsOtherPrivileges | fe/fe-core/src/main/java/com/starrocks/mysql/privilege/PrivBitSet.java:49-52 | unsetting SELECT from {SELECT, LOAD} leaves nothing as written, but {LOAD} as intended |
| PrivBitSets.PrivBitSet.Get | fe/fe-core/src/main/java/com/starrocks/mysql/privilege/PrivBitSet.java:54-57 | IllegalStateException exactly for an index of at least the number of privileges; for a privilege index the result is whether that bit is set |
| PrivBitSets.PrivBitSet.Or | fe/fe-core/src/main/java/com/starrocks/mysql/privilege/PrivBitSet.java:59-61 | the word becomes the union with the argument's word; a distinct argument is unchanged |
| PrivBitSets.PrivBitSet.And | fe/fe-core/src/main/java/com/starrocks/mysql/privilege/PrivBitSet.java:63-65 | the word becomes the intersection with the argument's word; a distinct argument is unchanged |
| PrivBitSets.PrivBitSet.Xor | fe/fe-core/src/main/java/com/starrocks/mysql/privilege/PrivBitSet.java:67-69 | the word becomes the symmetric difference with the argument's word; a distinct argument is unchanged |
| PrivBitSets.PrivBitSet.Remove | fe/fe-core/src/main/java/com/starrocks/mysql/privilege/PrivBitSet.java:71-75 | copy, xor, then and leaves exactly `set & ~privs.set`: a bit survives iff it was set and is not in `privs`; a distinct `privs` is unchanged |
| PrivBitSets.PrivBitSet.IsEmpty | fe/fe-core/src/main/java/com/starrocks/mysql/privilege/PrivBitSet.java:77-79 | an empty word has no privilege for `get`; a word without bits beyond the privileges and with no privilege for `get` is empty |
| PrivBitSets.EmptyIffNoPrivilege | fe/fe-core/src/main/java/com/starrocks/mysql/privilege/PrivBitSet.java:77-79 | a word is zero iff none of its privilege bits is set, for words whose bits all name privileges |
| PrivBitSets.PrivBitSet.Satisfy | fe/fe-core/src/main/java/com/starrocks/mysql/privilege/PrivBitSet.java:81-87 | with the AND operator: true iff every wanted bit is held; with any other operator: true iff some wanted bit is held |
| PrivBitSets.PrivBitSet.ContainsPrivs | fe/fe-core/src/main/java/com/starrocks/mysql/privilege/PrivBitSet.java:106-113 | true iff some listed privilege has its bit set, so false for an empty list |
| PrivBitSets.PrivBitSet.ContainsNodePriv | fe/fe-core/src/main/java/com/starrocks/mysql/privilege/PrivBitSet.java:89-91 | true iff the NODE bit is set |
| PrivBitSets.PrivBitSet.ContainsResourcePriv | fe/fe-core/src/main/java/com/starrocks/mysql/privilege/PrivBitSet.java:93-95 | true iff the USAGE bit is set |
| PrivBitSets.PrivBitSet.ContainsDbTablePriv | fe/fe-core/src/main/java/com/starrocks/mysql/privilege/PrivBitSet.java:97-100 | true iff one of SELECT, LOAD, ALTER, CREATE, DROP is set |
| PrivBitSets.PrivBitSet.ContainsImpersonatePriv | fe/fe-core/src/main/java/com/starrocks/mysql/privilege/PrivBitSet.java:102-104 | true iff the IMPERSONATE bit is set |
| PrivBitSets.PrivilegesBelowSpec | fe/fe-core/src/main/java/com/starrocks/mysql/privilege/PrivBitSet.java:115-123 | after scanning the first n indices, the list is strictly ascending by index and holds exactly the set privileges below n |
| PrivBitSets.PrivilegeListSpec | fe/fe-core/src/main/java/com/starrocks/mysql/privilege/PrivBitSet.java:115-123 | the privilege list is strictly ascending by index and holds exactly the privileges whose bit is set |
| PrivBitSets.PrivBitSet.ToPrivilegeList | fe/fe-core/src/main/java/com/starrocks/mysql/privilege/PrivBitSet.java:115-123 | the loop returns the privileges whose bit is set, each once, in ascending index order |
| PrivBitSets.PrivBitSet.Of | fe/fe-core/src/main/java/com/starrocks/mysql/privilege/PrivBitSet.java:125-139 | a new set whose bits are exactly the indices of the given privileges (both overloads) |
| PrivBitSets.OfPrivilegeList | fe/fe-core/src/main/java/com/starrocks/mysql/privilege/PrivBitSet.java:115-139 | `of(toPrivilegeList())` gives back every word whose bits all name privileges |
| PrivBitSets.PrivilegeListOf | fe/fe-core/src/main/java/com/starrocks/mysql/privilege/PrivBitSet.java:115-139 | `toPrivilegeList()` of `of(privs)` lists exactly the privileges in `privs`, ascending, without duplicates |
| PrivBitSets.PrivBitSet.Copy | fe/fe-core/src/main/java/com/starrocks/mysql/privilege/PrivBitSet.java:141-145 | a new, distinct object with the same word |
| PrivBitSets.PrivBitSet.Write | fe/fe-core/src/main/java/com/starrocks/mysql/privilege/PrivBitSet.java:164-167 | appends the word as one long and nothing else |
| PrivBitSets.PrivBitSet.ReadFields | fe/fe-core/src/main/java/com/starrocks/mysql/privilege/PrivBitSet.java:169-171 | succeeds iff a long is next; the word becomes that long, which with the returned rest makes up the input; on failure it throws IOException and keeps the word |
| PrivBitSets.PrivBitSet.Read | fe/fe-core/src/main/java/com/starrocks/mysql/privilege/PrivBitSet.java:158-162 | a new set read from the front of the input, or IOException |
| PrivBitSets.WriteReadRoundTrip | fe/fe-core/src/main/java/com/starrocks/mysql/privilege/PrivBitSet.java:164-171 | reading back what `write` emitted restores the same word and consumes exactly that long |
| DbPrivEntries.CreateDbPatternMatcher | fe/fe-core/src/main/java/com/starrocks/mysql/privilege/DbPrivEntry.java:80 | the pattern source is "%" for the database "*" and the database name unchanged otherwise |
| DbPrivEntries.DbPrivEntry.Empty | fe/fe-core/src/main/java/com/starrocks/mysql/privilege/DbPrivEntry.java:44-45 | the entry deserialisation starts from: no pattern, not any-database, class name not written |
| DbPrivEntries.DbPrivEntry.constructor | fe/fe-core/src/main/java/com/starrocks/mysql/privilege/DbPrivEntry.java:47-50 | host, user, domain flag, privilege set (shared, not copied) and database are the arguments; not yet analysed |
| DbPrivEntries.DbPrivEntry.Analyse | fe/fe-core/src/main/java/com/starrocks/mysql/privilege/DbPrivEntry.java:52-60 | sets the pattern built from the database; the any-database flag becomes true if the database is "*" and is otherwise kept |
| DbPrivEntries.DbPrivEntry.Create | fe/fe-core/src/main/java/com/starrocks/mysql/privilege/DbPrivEntry.java:62-71 | AnalysisException iff the privileges hold NODE, USAGE or IMPERSONATE; otherwise a new analysed entry with the given key, domain flag and privileges, whose `isAnyDb` is true exactly for the database "*" |
| DbPrivEntries.CompareKeys | fe/fe-core/src/main/java/com/starrocks/mysql/privilege/DbPrivEntry.java:103-113 | the first of host, db and user that differs decides, by the negated `String.compareTo` of that component; with equal host and db the users decide |
| DbPrivEntries.CompareKeysZeroIff | fe/fe-core/src/main/java/com/starrocks/mysql/privilege/DbPrivEntry.java:103-113 | the key order is zero exactly for equal (host, db, user) |
| DbPrivEntries.CompareKeysAntisymmetric | fe/fe-core/src/main/java/com/starrocks/mysql/privilege/DbPrivEntry.java:103-113 | swapping the keys negates the comparison |
| DbPrivEntries.CompareKeysTransitive | fe/fe-core/src/main/java/com/starrocks/mysql/privilege/DbPrivEntry.java:103-113 | the key order is transitive |
| DbPrivEntries.DbPrivEntry.CompareTo | fe/fe-core/src/main/java/com/starrocks/mysql/privilege/DbPrivEntry.java:96-114 | ClassCastException for an entry of another kind; otherwise zero iff host, db and user are equal, and else the negated `String.compareTo` of the first of host, db, user that differs |
| DbPrivEntries.CompareToReflexive | fe/fe-core/src/main/java/com/starrocks/mysql/privilege/DbPrivEntry.java:96-114 | an entry compares equal to itself |
| DbPrivEntries.CompareToAntisymmetric | fe/fe-core/src/main/java/com/starrocks/mysql/privilege/DbPrivEntry.java:96-114 | `a.compareTo(b)` is the negation of `b.compareTo(a)` |
| DbPrivEntries.CompareToTransitive | fe/fe-core/src/main/java/com/starrocks/mysql/privilege/DbPrivEntry.java:96-114 | `compareTo` is transitive, so sorting entries by it is well defined |
| DbPrivEntries.DbPrivEntry.KeyMatch | fe/fe-core/src/main/java/com/starrocks/mysql/privilege/DbPrivEntry.java:116-128 | true exactly when the other entry is a DbPrivEntry with the same host, db, user and domain flag; never for another kind of entry |
| DbPrivEntries.KeyMatchReflexive | fe/fe-core/src/main/java/com/starrocks/mysql/privilege/DbPrivEntry.java:116-128 | every entry matches its own key |
| DbPrivEntries.KeyMatchSymmetric | fe/fe-core/src/main/java/com/starrocks/mysql/privilege/DbPrivEntry.java:116-128 | `keyMatch` holds one way round iff it holds the other |
| DbPrivEntries.KeyMatchImpliesCompareZero | fe/fe-core/src/main/java/com/starrocks/mysql/privilege/DbPrivEntry.java:97-128 | entries whose keys match compare as zero |
| DbPrivEntries.CompareZeroIgnoresDomain | fe/fe-core/src/main/java/com/starrocks/mysql/privilege/DbPrivEntry.java:97-128 | two entries differing only in the domain flag compare as zero but do not match, so the converse of the previous row fails |
| DbPrivEntries.DbPrivEntry.Write | fe/fe-core/src/main/java/com/starrocks/mysql/privilege/DbPrivEntry.java:139-149 | appends the class name only if it was not yet written, then the superclass fields, then the database; the flag ends false |
| DbPrivEntries.DbPrivEntry.ReadFields | fe/fe-core/src/main/java/com/starrocks/mysql/privilege/DbPrivEntry.java:151-155 | reads the superclass fields and then the database; a missing database fails with IOException after the superclass fields were assigned |
| DbPrivEntries.WriteThenReadFields | fe/fe-core/src/main/java/com/starrocks/mysql/privilege/DbPrivEntry.java:139-155 | reading back what `write` emitted, after the class name, restores key, domain flag and privileges and consumes everything |
| PipelineBuilders.PipelineBuilderContext.constructor | be/src/exec/pipeline/pipeline_builder.h:32-35 | parallelism and stream flag are the arguments (constants from then on); empty pipeline list, both id counters 0, pseudo plan-node id at its upper bound, adaptive-DOP switch and aggregation flag off |
| PipelineBuilders.WrappingIncrement | be/src/exec/pipeline/pipeline_builder.h:140-141 | the `uint32_t` counter advances by one, and wraps to 0 only from the largest value |
| PipelineBuilders.PipelineBuilderContext.DegreeOfParallelism | be/src/exec/pipeline/pipeline_builder.h:84 | returns the const field that the constructor sets to its argument, so always the parallelism the context was created with |
| PipelineBuilders.PipelineBuilderContext.IsStreamPipeline | be/src/exec/pipeline/pipeline_builder.h:86 | returns the const field that the constructor sets to its argument, so always the stream flag the context was created with |
| PipelineBuilders.PipelineBuilderContext.ForceDisableAdaptiveDop | be/src/exec/pipeline/pipeline_builder.h:121 | returns the switch, which the constructor sets to false and only `set_force_disable_adaptive_dop` changes |
| PipelineBuilders.PipelineBuilderContext.NextPipeId | be/src/exec/pipeline/pipeline_builder.h:78 | returns the counter's old value and advances it; without wrap-around the next result is strictly larger |
| PipelineBuilders.PipelineBuilderContext.NextOperatorId | be/src/exec/pipeline/pipeline_builder.h:80 | as `next_pipe_id`, on the operator counter alone |
| PipelineBuilders.PipelineBuilderContext.NextPseudoPlanNodeId | be/src/exec/pipeline/pipeline_builder.h:82 | returns the old value, which is negative and at most the upper bound, and counts down by one; the counter must be above the smallest `int32_t` |
| PipelineBuilders.PipelineBuilderContext.AddPipeline | be/src/exec/pipeline/pipeline_builder.h:37-39 | appends exactly one pipeline with the given operators and the pipeline counter's old value as id, advances that counter, keeps earlier pipelines, and keeps the ids ascending |
| PipelineBuilders.PipelineBuilderContext.LastPipeline | be/src/exec/pipeline/pipeline_builder.h:89-92 | needs a non-empty list; the result is in the list and, while ids are ascending, has the largest id |
| PipelineBuilders.PipelineBuilderContext.SetForceDisableAdaptiveDop | be/src/exec/pipeline/pipeline_builder.h:122 | the getter returns the value last set |
| PipelineBuilders.LocalExchangeBufferChunks | be/src/exec/pipeline/pipeline_builder.h:113 | always 8 |
| PipelineBuilders.LocalShuffleDecision | be/src/exec/pipeline/pipeline_builder.h:53-59 | a shuffle happens iff DOP > 1 and the source operator could local shuffle; it partitions by the source's own expressions when it has some, else by the caller's list or generator |
| Bitmaps.BitmapSize | be/test/util/bitmap_test.cpp:32-38 | the least number of bytes whose bits cover the given number of bits |
| Bitmaps.BitmapSizeExamples | be/test/util/bitmap_test.cpp:34-37 | sizes 0, 1, 1, 2 for 0, 1, 8, 9 bits |

## Left out

- Stream byte encoding. Bytes are not modelled for `DataOutput.writeLong` or for `Text.writeString`/`readString`: streams are sequences of typed values.
- PrivEntry internals. The superclass PrivEntry is not part of this model. Its `write`/`readFields` (host, user, domain flag, privilege set) is modelled as one stream value, `analyse()` as doing nothing, and the domain resolver flag `isSetByDomainResolver` is omitted.
- The pattern matcher and case sensitivity. `PatternMatcher.createMysqlPattern` is kept only as the pattern source string. Case sensitivity (`CaseSensibility`) and the information_schema special case (`ClusterNamespace`, `InfoSchemaDb`) are not modelled, and neither is the AnalysisException that compiling a pattern could throw.
- Formatting. `toString` and `toGrantSQL` are text formatting on external classes (`GrantStmt`, `TablePattern`, the privilege name table).
- Trivial getters. `getDbPattern`, `getOrigDb` and `isAnyDb` return fields directly; the model reads those fields.
- Null references and UTF-16. Java null has no counterpart: a `compareTo(null)` would fail with NullPointerException while building its message. Strings are sequences of characters, without UTF-16 surrogate detail.
- DbPrivEntries.DbPrivEntry.Write: writes to the stream are taken to succeed. In the source `super.write` or `Text.writeString` can throw IOException after the class name was written, leaving `isClassNameWrote` true, so the next `write` of that entry would leave out the class name; that path is not modelled.
- PrivBitSets.PrivBitSet.Write: writing the long is taken to succeed; the IOException `DataOutput.writeLong` may throw is not modelled.
- PrivBitSets.PrivBitSet.Get: negative indices are accepted, as in the source, but the contract speaks only about non-negative ones.
- PrivBitSets.PrivBitSet.Satisfy: the privilege predicate's word is taken as a plain long; PrivPredicate itself is not part of this model.
- The declared-only pipeline-builder members. The bodies of the `maybe_interpolate_*`, `maybe_gather_pipelines_to_one`, `interpolate_spill_process`, `interpolate_cache_operator`, `could_local_shuffle`, `dop_of_source_operator`, `source_operator`, `inherit_upstream_source_properties` and `push/pop_dependent_pipeline` members are not in the header; only the documented shuffle rule is modelled.
- The fragment and runtime handles. The fragment context and runtime state accessors return external handles.
- `PipelineBuilder::build`. It walks the exec-node tree through factories that are not part of this model.
- Spilling. be/src/exec/spill/spiller.h is asynchronous I/O orchestration with atomics, a mutex and external writer and reader classes.
- `size_t` width. Parallelism and bitmap sizes are unbounded naturals, without 64-bit wrap-around.
- PipelineBuilders.PipelineBuilderContext.NextPseudoPlanNodeId: counting down past the smallest `int32_t` is undefined behaviour in C++, so it is a precondition rather than a modelled wrap.

## Findings

| source | as written | input that shows it | evidently intended | confidence | as-written member | corrected member |
|---|---|---|---|---|---|---|
| fe/fe-core/src/main/java/com/starrocks/mysql/privilege/PrivBitSet.java:51 | `unset(index)` computes `set &= ~set`, which clears every privilege | unsetting SELECT from {SELECT, LOAD} leaves {} | `set &= ~(1 << index)`, which clears only that privilege and leaves {LOAD} | high (not executed) | PrivBitSets.UnsetAsWrittenDropsOtherPrivileges | PrivBitSets.PrivBitSet.UnsetCorrected |
