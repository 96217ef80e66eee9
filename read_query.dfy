/**
 * DimensionLabelReadDataQuery: reads label values through one delegated query
 * on the indexed array.
 */
module ReadQuery {
  import opened Common
  import opened Types
  import opened DelegatedQuery

  /** The parent holds resolved index ranges on `d`: neither the default nor pending label ranges. */
  predicate HasIndexRanges(parent: Subarray, d: nat)
    requires d < |parent.dims|
  {
    !parent.IsDefault(d) && !parent.HasLabelRanges(d)
  }

  /** The delegated query the read constructor configures. */
  function ReadConfig(dimLabel: DimensionLabel, parent: Subarray, labelBuffer: QueryBuffer, dimIdx: nat): Query
    requires dimIdx < |parent.dims|
  {
    var q := NewQuery(IndexedArray, None).SetLayout(RowMajor);
    var q := if HasIndexRanges(parent, dimIdx) then
        var s := q.CurrentSubarray();
        q.SetSubarray(s.(ops := s.ops + [SetRangesForDim(0, parent.RangesForDim(dimIdx))]))
      else q;
    q.Bind(dimLabel.labelAttribute.name, CallerBuffer(labelBuffer))
  }

  class DimensionLabelReadDataQuery {
    var query: Query

    ghost predicate Valid()
      reads this
    {
      query.Valid() && query.target == IndexedArray && OnlyDimZero(query.CurrentSubarray().ops)
    }

    constructor (dimLabel: DimensionLabel, parent: Subarray, labelBuffer: QueryBuffer, dimIdx: nat)
      requires dimIdx < |parent.dims|
      ensures Valid()
      ensures query == ReadConfig(dimLabel, parent, labelBuffer, dimIdx)
    {
      query := NewQuery(IndexedArray, None);
      new;
      query := query.SetLayout(RowMajor);
      if !parent.IsDefault(dimIdx) && !parent.HasLabelRanges(dimIdx) {
        var subarray := query.CurrentSubarray();
        subarray := subarray.(ops := subarray.ops + [SetRangesForDim(0, parent.RangesForDim(dimIdx))]);
        query := query.SetSubarray(subarray);
      }
      query := query.Bind(dimLabel.labelAttribute.name, CallerBuffer(labelBuffer));
    }

    /**
     * Appends index ranges resolved from labels to dimension 0 of the
     * delegated query's subarray; nothing else about the query changes.
     */
    method AddIndexRangesFromLabel(isPointRanges: bool, start: seq<int>, count: uint64)
      requires Valid()
      modifies this
      ensures Valid()
      ensures query.subarray.Some?
      ensures query.CurrentSubarray().ops ==
              old(query.CurrentSubarray().ops) + [DelegatedQuery.AddIndexRangesFromLabel(0, isPointRanges, start, count)]
      ensures query.CurrentSubarray().coalesceRanges == old(query.CurrentSubarray().coalesceRanges)
      ensures query.(subarray := old(query.subarray)) == old(query)
    {
      var subarray := query.CurrentSubarray();
      subarray := subarray.(ops := subarray.ops + [DelegatedQuery.AddIndexRangesFromLabel(0, isPointRanges, start, count)]);
      query := query.SetSubarray(subarray);
    }

    function Completed(): (done: bool)
      reads this
      ensures done <==> query.status == QueryStatus.Completed
    {
      query.status == QueryStatus.Completed
    }

    /** `init` then `process` on the delegated query; a failing engine call is propagated. */
    method Process(initReply: EngineReply, processReply: EngineReply) returns (o: Outcome)
      requires Valid()
      modifies this
      ensures Valid()
      ensures !initReply.ok ==> o == Fail(EngineError(IndexedArray, InitCall)) && query == old(query).Init(initReply)
      ensures initReply.ok ==> query == old(query).Init(initReply).Process(processReply)
      ensures initReply.ok && !processReply.ok ==> o == Fail(EngineError(IndexedArray, ProcessCall))
      ensures o == Pass <==> initReply.ok && processReply.ok
    {
      query := query.Init(initReply);
      if !initReply.ok {
        return Fail(EngineError(IndexedArray, InitCall));
      }
      query := query.Process(processReply);
      if !processReply.ok {
        return Fail(EngineError(IndexedArray, ProcessCall));
      }
      return Pass;
    }

    /** The read reports completion only once the engine has been called, `init` first. */
    lemma CompletedOnlyAfterInit()
      requires Valid()
      ensures Completed() ==> query.log != [] && query.log[0] == InitCall
    {
    }
  }

  /** The read targets the indexed array with ROW_MAJOR layout and binds only the label buffer. */
  lemma ReadConfigShape(dimLabel: DimensionLabel, parent: Subarray, labelBuffer: QueryBuffer, dimIdx: nat)
    requires dimIdx < |parent.dims|
    ensures var q := ReadConfig(dimLabel, parent, labelBuffer, dimIdx);
      q.target == IndexedArray && q.fragmentName == None && q.layout == Some(RowMajor) &&
      q.buffers == [Binding(dimLabel.labelAttribute.name, CallerBuffer(labelBuffer))] &&
      q.status == Uninitialized && q.log == []
  {
  }

  /**
   * The parent's ranges for `dimIdx` are copied onto dimension 0 exactly when
   * the parent holds resolved index ranges there; otherwise the default
   * subarray is kept.
   */
  lemma ReadCopiesOnlyIndexRanges(dimLabel: DimensionLabel, parent: Subarray, labelBuffer: QueryBuffer, dimIdx: nat)
    requires dimIdx < |parent.dims|
    ensures var q := ReadConfig(dimLabel, parent, labelBuffer, dimIdx);
      (q.subarray.Some? <==> HasIndexRanges(parent, dimIdx)) &&
      (q.subarray.Some? ==>
        q.subarray.value == DefaultSubarray.(ops := [SetRangesForDim(0, parent.RangesForDim(dimIdx))]))
  {
  }

  /** The read consults the parent subarray only at `dimIdx`. */
  lemma ReadIgnoresOtherDimensions(dimLabel: DimensionLabel, p1: Subarray, p2: Subarray, labelBuffer: QueryBuffer, dimIdx: nat)
    requires dimIdx < |p1.dims| && dimIdx < |p2.dims|
    requires p1.dims[dimIdx] == p2.dims[dimIdx]
    ensures ReadConfig(dimLabel, p1, labelBuffer, dimIdx) == ReadConfig(dimLabel, p2, labelBuffer, dimIdx)
  {
  }
}
