# Dimension-label data queries, modelled in Dafny

A dimension label lets a user address one dimension of an array by label values instead of native
indices. It is backed by two arrays: the *indexed array* (dense, keyed by index, holding labels)
and the *labelled array* (sparse, keyed by label, holding indices). This project models the layer
that turns a label read or write into delegated queries on those two arrays
(`tiledb/sm/query/dimension_label/dimension_label_data_query.cc`):

- **Sort validator** (`sort_validator.dfy`). `IsSortedBufferImpl` is the strict-monotonicity scan,
  with its element count `buffer_size / sizeof(T)` and its `uint64_t` loop bound. `IsSortedBuffer`
  is the dispatch from a datatype tag to the element type. The scan is proved against an
  adjacent-pair predicate, and that predicate is proved equivalent to all-pairs ordering.
- **Delegated query** (`delegated_query.dfy`). The engine's `Query` is an abstract record: the target
  array, the fragment name, the layout, its own subarray, the bound buffers, the status, and a log of
  `init`/`process` calls. The subarray is kept as the coalesce flag plus the list of range requests
  made on it (`set_ranges_for_dim`, `add_point_ranges`, `add_index_ranges_from_label`), each
  recording its dimension. What the engine replies to each `init`/`process` call is an input
  (`EngineReply`).
- **Read query** (`read_query.dfy`), **ordered write** (`ordered_write.dfy`) and **unordered write**
  (`unordered_write.dfy`). Each is a class that owns its delegated query or queries.
  - The read's constructor raises no error of its own, so it is a Dafny constructor. The engine
    setters it wraps in `throw_if_not_ok` are assumed to succeed (see Left out).
  - Each write's constructor can throw `DimensionLabelDataQueryStatusException`. It is a static
    `Create` method that returns either that error or the configured object.
  - A pure function (`ReadConfig`, `OrderedWriteConfig`, `UnorderedWriteConfig`) states what the
    constructor builds. The lemmas about the constructors' decisions are stated over these functions.
  - The unordered write also keeps a ghost trace of the engine calls on both of its queries. Its
    invariant says the labelled array is initialised only right after the indexed array was processed.
- **Shared types** (`common.dfy`, `types.dfy`): results, errors and their messages, `uint64` wrap-around,
  datatype tags, the dimension-label description, caller buffers, and the parent subarray. A null
  data pointer is `data == None`.

Where the code departs from what a reader would expect of this layer, the model follows the code:

- A buffer with no whole element is expected to count as sorted, but the code overruns it (see Findings).
- The ordered write copies the parent's ranges whenever the parent is not the default on `dim_idx`.
  Unlike the read, it does not check whether those are pending label ranges
  (`OrderedWrite.OrderedWriteIgnoresPendingLabelRanges`).
- The unordered write rejects a range count other than one only when the parent is not the default on
  `dim_idx`. A default dimension contributes its single domain range.
- The ordered write sorts increasing only for `INCREASING_LABELS`. Any other label order is checked as
  decreasing.

## Model

| member | source | states |
|---|---|---|
| `Common.Sub64` | tiledb/sm/query/dimension_label/dimension_label_data_query.cc:115 | `uint64_t` subtraction is the difference reduced modulo 2^64 |
| `SortValidator.Width` | tiledb/sm/query/dimension_label/dimension_label_data_query.cc:113 | `sizeof(T)` of every instantiated element type is between 1 and 8 bytes |
| `SortValidator.ElementCount` | tiledb/sm/query/dimension_label/dimension_label_data_query.cc:113 | the element count is the largest `n` with `n * sizeof(T) <= buffer_size` (integer division) |
| `SortValidator.IsSortedBufferImpl` | tiledb/sm/query/dimension_label/dimension_label_data_query.cc:104-128 | for a buffer of at least one whole element, the scan returns true iff every adjacent pair of the first `buffer_size / sizeof(T)` values is strictly increasing (`increasing`) or strictly decreasing (otherwise); it returns false at the first offending pair |
| `SortValidator.EmptyBufferOverrun` | tiledb/sm/query/dimension_label/dimension_label_data_query.cc:113-121 | with no whole element, the loop bound `num_values - 1` wraps to 2^64 - 1, so the first iteration runs and reads past the buffer |
| `SortValidator.ScanType` | tiledb/sm/query/dimension_label/dimension_label_data_query.cc:143-230 | the element type the dispatch picks always has the width `datatype_size` gives the tag |
| `SortValidator.DispatchCoverage` | tiledb/sm/query/dimension_label/dimension_label_data_query.cc:143-230 | the dispatch handles exactly the eight integer tags, FLOAT32/FLOAT64, and the DATETIME_* and TIME_* tags; every other tag reaches `unreachable` |
| `SortValidator.TemporalTagsScanAsInt64` | tiledb/sm/query/dimension_label/dimension_label_data_query.cc:201-227 | all 22 DATETIME_* and TIME_* tags are scanned as `int64_t` |
| `SortValidator.IsSortedBuffer` | tiledb/sm/query/dimension_label/dimension_label_data_query.cc:138-233 | for a supported tag, returns true iff the values the scan covers are strictly monotone in the requested direction, including a buffer with no whole element (corrected, see Findings) |
| `SortValidator.MonotoneIffPairwise` | tiledb/sm/query/dimension_label/dimension_label_data_query.cc:114-126 | adjacent-pair strict monotonicity, which the scan checks, is equivalent to every earlier value being strictly below (above) every later one |
| `SortValidator.AdjacentToPair` | tiledb/sm/query/dimension_label/dimension_label_data_query.cc:114-126 | adjacent-pair monotonicity orders any two positions `i < j` |
| `SortValidator.SingleElementSorted` | tiledb/sm/query/dimension_label/dimension_label_data_query.cc:113-127 | a buffer holding one whole element is sorted in both directions |
| `SortValidator.PartialElementIgnored` | tiledb/sm/query/dimension_label/dimension_label_data_query.cc:113 | trailing bytes short of a whole element do not add to the count |
| `Types.MakeIndexData` | tiledb/sm/query/dimension_label/dimension_label_data_query.cc:334-336 | the synthesized index covers the range densely: one value per position, starting at the range start, and `data_size` is count times the index datatype's size |
| `DelegatedQuery.NewQuery` | tiledb/sm/query/dimension_label/dimension_label_data_query.cc:57-58 | a new delegated query targets the given array with the given fragment name, has no layout, subarray or buffer set, is uninitialised, and has no engine call logged |
| `ReadQuery.DimensionLabelReadDataQuery.constructor` | tiledb/sm/query/dimension_label/dimension_label_data_query.cc:51-74 | the constructed read holds exactly the delegated query `ReadConfig` describes |
| `ReadQuery.ReadConfigShape` | tiledb/sm/query/dimension_label/dimension_label_data_query.cc:57-73 | the read queries the indexed array, with no fragment name and ROW_MAJOR layout, binds only the label buffer to the label attribute, and makes no engine call |
| `ReadQuery.ReadCopiesOnlyIndexRanges` | tiledb/sm/query/dimension_label/dimension_label_data_query.cc:62-69 | dimension 0 gets the parent's ranges for `dim_idx` iff the parent is non-default there and has no label ranges, with the coalesce flag left at its default; otherwise the default subarray is kept |
| `ReadQuery.ReadIgnoresOtherDimensions` | tiledb/sm/query/dimension_label/dimension_label_data_query.cc:62-69 | two parents that agree on `dim_idx` give the same delegated query |
| `ReadQuery.DimensionLabelReadDataQuery.AddIndexRangesFromLabel` | tiledb/sm/query/dimension_label/dimension_label_data_query.cc:76-81 | appends one `add_index_ranges_from_label` request on dimension 0 to the query's subarray; every request stays on dimension 0 and nothing else about the query changes |
| `ReadQuery.DimensionLabelReadDataQuery.Completed` | tiledb/sm/query/dimension_label/dimension_label_data_query.cc:83-85 | holds iff the delegated query's status is COMPLETED |
| `ReadQuery.DimensionLabelReadDataQuery.Process` | tiledb/sm/query/dimension_label/dimension_label_data_query.cc:87-90 | `init` then `process`. A failing `init` stops before `process`, and either failure propagates as an engine error |
| `ReadQuery.DimensionLabelReadDataQuery.CompletedOnlyAfterInit` | tiledb/sm/query/dimension_label/dimension_label_data_query.cc:83-90 | a read reports completion only after the engine was called, `init` first |
| `OrderedWrite.IndexPointCount` | tiledb/sm/query/dimension_label/dimension_label_data_query.cc:278-279 | the point count is the index buffer's bytes divided by the index datatype's size, rounded down |
| `OrderedWrite.OrderedWriteDataQuery.constructor` | tiledb/sm/query/dimension_label/dimension_label_data_query.cc:244-249 | the member initialiser creates a fresh query on the indexed array with the given fragment name |
| `OrderedWrite.OrderedWriteDataQuery.Create` | tiledb/sm/query/dimension_label/dimension_label_data_query.cc:235-285 | throws the "not in the expected order" error iff the labels are not strictly monotone in the label order's direction. At the throw only the layout is set: no buffer is bound and no subarray is set. Otherwise it yields the query `OrderedWriteConfig` describes |
| `OrderedWrite.OrderedWriteRejectsIffUnsorted` | tiledb/sm/query/dimension_label/dimension_label_data_query.cc:253-262 | the configuration is the status error with its message exactly when the labels are out of order |
| `OrderedWrite.OrderedWriteShape` | tiledb/sm/query/dimension_label/dimension_label_data_query.cc:244-264 | an accepted ordered write queries the indexed array with the given fragment name and ROW_MAJOR layout, with the label buffer bound to the label attribute |
| `OrderedWrite.OrderedWriteUsesIndexPoints` | tiledb/sm/query/dimension_label/dimension_label_data_query.cc:276-284 | with an index buffer, coalescing is on and the subarray holds exactly one `add_point_ranges` request on dimension 0, with `bytes / datatype_size` points |
| `OrderedWrite.OrderedWriteCopiesParentRanges` | tiledb/sm/query/dimension_label/dimension_label_data_query.cc:266-275 | without an index buffer, the parent's ranges for `dim_idx` are copied onto dimension 0 iff the parent is non-default there, with the coalesce flag left at its default |
| `OrderedWrite.OrderedWriteIgnoresPendingLabelRanges` | tiledb/sm/query/dimension_label/dimension_label_data_query.cc:267-274 | on a non-default dimension with label ranges, the ordered write copies the parent's ranges while the read keeps the default |
| `OrderedWrite.OrderedWriteIgnoresOtherDimensions` | tiledb/sm/query/dimension_label/dimension_label_data_query.cc:266-284 | two parents that agree on `dim_idx` give the same ordered-write configuration |
| `OrderedWrite.OrderedWriteIncreasingExample` | tiledb/sm/query/dimension_label/dimension_label_data_query.cc:253-262 | with INCREASING_LABELS on an int64 label, labels 5, 3, 9 are refused and 1, 3, 9 are accepted |
| `OrderedWrite.OrderedWriteDataQuery.CompletedOnlyAfterInit` | tiledb/sm/query/dimension_label/dimension_label_data_query.cc:287-294 | an ordered write reports completion only after the engine was called, `init` first |
| `OrderedWrite.OrderedWriteDataQuery.Completed` | tiledb/sm/query/dimension_label/dimension_label_data_query.cc:287-289 | holds iff the delegated query's status is COMPLETED |
| `OrderedWrite.OrderedWriteDataQuery.Process` | tiledb/sm/query/dimension_label/dimension_label_data_query.cc:291-294 | `init` then `process`. A failing `init` stops before `process`, and either failure propagates as an engine error |
| `OrderedWrite.OrderedWriteDataQuery.AddIndexRangesFromLabel` | tiledb/sm/query/dimension_label/dimension_label_data_query.cc:296-300 | always fails with "Updating index ranges is not supported on writes.", whatever the arguments |
| `UnorderedWrite.UnorderedWriteDataQuery.constructor` | tiledb/sm/query/dimension_label/dimension_label_data_query.cc:310-319 | the member initialisers create a fresh query on each array with the given fragment name, and no index data |
| `UnorderedWrite.UnorderedWriteDataQuery.Create` | tiledb/sm/query/dimension_label/dimension_label_data_query.cc:302-368 | throws the "single range" error iff there is no index buffer and the parent is non-default on `dim_idx` with a range count other than one; otherwise it yields the queries and index data `UnorderedWriteConfig` describes, with an empty call trace |
| `UnorderedWrite.UnorderedRejectsIffNotSingleRange` | tiledb/sm/query/dimension_label/dimension_label_data_query.cc:321-331 | the configuration is the status error with its message exactly in that case |
| `UnorderedWrite.UnorderedRolesSwapped` | tiledb/sm/query/dimension_label/dimension_label_data_query.cc:339-367 | both queries use UNORDERED layout and the same fragment name, and set no subarray. The indexed array binds labels to its label attribute and the index to its index dimension. The labelled array binds labels to its label dimension and the same index source to its index attribute |
| `UnorderedWrite.UnorderedBindsCallerIndex` | tiledb/sm/query/dimension_label/dimension_label_data_query.cc:349-367 | with an index buffer, no index is synthesized and both queries bind the caller's buffer |
| `UnorderedWrite.UnorderedSynthesizesIndex` | tiledb/sm/query/dimension_label/dimension_label_data_query.cc:321-363 | without an index buffer, the parent holds exactly one range on `dim_idx`. The synthesized index has one value per position of that range, `start + i` at position `i`, and both queries bind that owned data |
| `UnorderedWrite.UnorderedIgnoresOtherDimensions` | tiledb/sm/query/dimension_label/dimension_label_data_query.cc:321-337 | two parents that agree on `dim_idx` give the same unordered-write configuration |
| `UnorderedWrite.UnorderedWriteDataQuery.AddIndexRangesFromLabel` | tiledb/sm/query/dimension_label/dimension_label_data_query.cc:370-374 | always fails with "Updating index ranges is not supported on writes.", whatever the arguments |
| `UnorderedWrite.UnorderedWriteDataQuery.Completed` | tiledb/sm/query/dimension_label/dimension_label_data_query.cc:376-379 | holds iff both delegated queries' statuses are COMPLETED |
| `UnorderedWrite.UnorderedWriteDataQuery.Process` | tiledb/sm/query/dimension_label/dimension_label_data_query.cc:381-389 | the engine calls made are a prefix of `init`/`process` on the indexed array then `init`/`process` on the labelled array, ending at the first failure, which propagates. The labelled query is untouched unless the indexed write succeeded, and nothing is rolled back |
| `UnorderedWrite.UnorderedWriteDataQuery.Invoke` | tiledb/sm/query/dimension_label/dimension_label_data_query.cc:383-388 | one `init()` or `process()` call changes only the query on the targeted array and is appended to the trace. The class invariant is kept: a `process` follows an `init` on that query, and the labelled array's `init` comes right after the indexed array's `process` |
| `UnorderedWrite.UnorderedWriteDataQuery.CompletedOnlyAfterIndexedWrite` | tiledb/sm/query/dimension_label/dimension_label_data_query.cc:376-389 | when the write reports completion, the trace shows the labelled array initialised right after the indexed array was processed |

## Findings

| source | as written | input that shows it | evidently intended | confidence | as-written member | corrected member |
|---|---|---|---|---|---|---|
| tiledb/sm/query/dimension_label/dimension_label_data_query.cc:113-127 | `num_values - 1` is computed in `uint64_t`, so with zero elements the loop bound is 2^64 - 1 and the scan reads `buffer[1]` and `buffer[0]` | a label buffer with `buffer_size < sizeof(T)`, e.g. an empty label buffer given to an ordered write | a buffer with no whole element is vacuously sorted | high, not executed | `SortValidator.EmptyBufferOverrun` | `SortValidator.IsSortedBuffer` |

The scan itself (`SortValidator.IsSortedBufferImpl`) is kept as written, with the precondition of at
least one whole element that it needs. The correction is a guard in the dispatch, and the ordered
write uses the corrected dispatch.

## Left out

- Query engine internals (`init`, `process`, `status`, `set_layout`, `set_subarray`, buffer binding):
  the setters are assumed to succeed, because the `throw_if_not_ok` around them only reports engine
  faults that are outside this layer. `init` and `process` take the engine's reply as a parameter.
  Their failure is modelled.
- Subarray internals: range representation, coalescing, `add_point_ranges`, and the resolution of
  label ranges into index ranges. The model records the requests made on the delegated query's subarray.
- The engine's default for a subarray's coalesce flag is left unspecified (`DefaultCoalesceRanges`).
- A default parent dimension is assumed to hold exactly one range, the domain (`Subarray.WellFormed`).
  The unordered write reads `ranges_for_dim(dim_idx)[0]` on such a dimension.
- `IndexDataCreate::make_index_data` is not part of this model. `Types.MakeIndexData` is a reference
  definition of it: the dense run of the range.
- The cell contents the engine writes. The claim that the two arrays end up as inverse mappings is not
  stated. The model states only that both queries bind the same label and index sources.
- FLOAT32/FLOAT64: values are compared as mathematical integers. NaN, infinities and fractions are not
  modelled.
- `typed_buffer<T>` reinterpretation of raw bytes. A buffer's data is given as values of the element
  type. That each value lies in `T`'s range is not checked.
- The trailing boolean argument of `set_data_buffer` when binding the synthesized index.
- The stats timer, the storage manager, `tdb_new`/`unique_ptr` ownership, and freeing the index data.
- The common `DimensionLabelDataQuery` base class and virtual dispatch: the three classes have
  members with the same names but no shared interface type.
- `SortValidator.IsSortedBuffer`: for a buffer with no whole element it returns true where the code
  overruns the buffer (see Findings).
