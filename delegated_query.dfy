/**
 * The delegated query of the storage engine, as an abstract record of what
 * this layer configures on it and of the engine calls it makes. The engine's
 * behaviour is not modelled: the outcome of each `init`/`process` call is an
 * input (an EngineReply).
 */
module DelegatedQuery {
  import opened Common
  import opened Types

  datatype Layout = RowMajor | ColMajor | GlobalOrder | Unordered

  datatype QueryStatus = Failed | Completed | InProgress | Incomplete | Uninitialized | Initialized

  /**
   * One request this layer makes of a subarray for one dimension; how the
   * subarray turns requests into ranges (coalescing, label resolution) is
   * outside this model.
   */
  datatype RangeOp =
    | SetRangesForDim(dim: nat, ranges: seq<Range>)
    | AddPointRanges(dim: nat, start: seq<int>, count: uint64)
    | AddIndexRangesFromLabel(dim: nat, isPointRanges: bool, start: seq<int>, count: uint64)

  /** The query's own subarray: the coalesce flag and the range requests applied to it. */
  datatype QuerySubarray = QuerySubarray(coalesceRanges: bool, ops: seq<RangeOp>)

  /**
   * A copy of the query's default subarray: no range requests, and the
   * coalesce flag at whatever default the engine gives it.
   */
  const DefaultCoalesceRanges: bool

  const DefaultSubarray := QuerySubarray(DefaultCoalesceRanges, [])

  /** Where the data bound to a name comes from. */
  datatype BufferSource =
    /** A caller's buffer, bound with `set_dimension_label_buffer`. */
    | CallerBuffer(buffer: QueryBuffer)
    /** The query-owned synthesized index, bound with `set_data_buffer`. */
    | OwnedIndexData(data: IndexData)

  datatype Binding = Binding(name: string, source: BufferSource)

  /** What the engine reports for one `init` or `process` call. */
  datatype EngineReply = EngineReply(ok: bool, status: QueryStatus)

  datatype Query = Query(
    target: ArrayKind,
    fragmentName: Option<string>,
    layout: Option<Layout>,
    subarray: Option<QuerySubarray>,
    buffers: seq<Binding>,
    status: QueryStatus,
    log: seq<EngineCall>)
  {
    /**
     * The status changes only through engine calls, and the first engine call
     * on a query is `init`.
     */
    predicate Valid() {
      (log == [] ==> status == Uninitialized) &&
      (log != [] ==> log[0] == InitCall)
    }

    /** The subarray the query currently holds (`*query_->subarray()`). */
    function CurrentSubarray(): QuerySubarray {
      if subarray.Some? then subarray.value else DefaultSubarray
    }

    function SetLayout(l: Layout): Query {
      this.(layout := Some(l))
    }

    function SetSubarray(s: QuerySubarray): Query {
      this.(subarray := Some(s))
    }

    function Bind(name: string, source: BufferSource): Query {
      this.(buffers := buffers + [Binding(name, source)])
    }

    /** `init()`: the engine sets a new status. */
    function Init(reply: EngineReply): Query {
      this.(status := reply.status, log := log + [InitCall])
    }

    /** `process()`: the engine sets a new status. */
    function Process(reply: EngineReply): Query {
      this.(status := reply.status, log := log + [ProcessCall])
    }

    /** The engine call `call`, either `init()` or `process()`. */
    function Call(call: EngineCall, reply: EngineReply): Query {
      if call == InitCall then Init(reply) else Process(reply)
    }
  }

  /** A query freshly created against one of the two arrays. */
  function NewQuery(target: ArrayKind, fragmentName: Option<string>): (q: Query)
    ensures q.Valid()
    ensures q.target == target && q.fragmentName == fragmentName
    ensures q.layout.None? && q.subarray.None? && q.buffers == []
    ensures q.status == Uninitialized && q.log == []
  {
    Query(target, fragmentName, None, None, [], Uninitialized, [])
  }

  /** Every range request in `ops` addresses dimension 0. */
  predicate OnlyDimZero(ops: seq<RangeOp>) {
    forall i :: 0 <= i < |ops| ==> ops[i].dim == 0
  }
}
