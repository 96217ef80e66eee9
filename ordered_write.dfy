/**
 * OrderedWriteDataQuery: writes to an ordered dimension label through one
 * delegated query on the indexed array, after checking that the labels are
 * strictly monotonic in the label order's direction.
 */
module OrderedWrite {
  import opened Common
  import opened Types
  import opened DelegatedQuery
  import opened SortValidator
  import ReadQuery

  /** The label datatype reaches a scan, and the label buffer holds the elements its size claims. */
  predicate LabelBufferReadable(dimLabel: DimensionLabel, labelBuffer: QueryBuffer) {
    var t := dimLabel.labelDimension.valueType;
    Supported(t) && ElementCount(labelBuffer.size, ScanType(t).value) <= |labelBuffer.Values()|
  }

  /** The labels are strictly increasing for INCREASING_LABELS, strictly decreasing otherwise. */
  predicate LabelsInExpectedOrder(dimLabel: DimensionLabel, labelBuffer: QueryBuffer)
    requires LabelBufferReadable(dimLabel, labelBuffer)
  {
    StrictlyMonotone(ScannedValues(labelBuffer, dimLabel.labelDimension.valueType),
                     dimLabel.labelOrder == IncreasingLabels)
  }

  /** Number of index points in the index buffer: its bytes over the index datatype's size. */
  function IndexPointCount(dimLabel: DimensionLabel, indexBuffer: QueryBuffer): (n: uint64)
    ensures n as int * DatatypeSize(dimLabel.indexDimension.valueType) <= indexBuffer.size as int
    ensures indexBuffer.size as int < (n as int + 1) * DatatypeSize(dimLabel.indexDimension.valueType)
  {
    indexBuffer.size / DatatypeSize(dimLabel.indexDimension.valueType) as uint64
  }

  /** The delegated query the constructor configures, or the exception it throws. */
  function OrderedWriteConfig(
    dimLabel: DimensionLabel, parent: Subarray, labelBuffer: QueryBuffer,
    indexBuffer: QueryBuffer, dimIdx: nat, fragmentName: Option<string>): Result<Query>
    requires LabelBufferReadable(dimLabel, labelBuffer)
    requires dimIdx < |parent.dims|
  {
    var q := NewQuery(IndexedArray, fragmentName).SetLayout(RowMajor);
    if !LabelsInExpectedOrder(dimLabel, labelBuffer) then
      Err(DataQueryStatusError(LabelsNotInOrderMessage))
    else
      var q := q.Bind(dimLabel.labelAttribute.name, CallerBuffer(labelBuffer));
      if indexBuffer.IsNull() then
        if !parent.IsDefault(dimIdx) then
          var s := q.CurrentSubarray();
          Ok(q.SetSubarray(s.(ops := s.ops + [SetRangesForDim(0, parent.RangesForDim(dimIdx))])))
        else
          Ok(q)
      else
        var s := q.CurrentSubarray().(coalesceRanges := true);
        Ok(q.SetSubarray(s.(ops := s.ops + [AddPointRanges(0, indexBuffer.Values(), IndexPointCount(dimLabel, indexBuffer))])))
  }

  class OrderedWriteDataQuery {
    var query: Query

    ghost predicate Valid()
      reads this
    {
      query.Valid() && query.target == IndexedArray
    }

    /** The member initialiser: a fresh query on the indexed array. */
    constructor (fragmentName: Option<string>)
      ensures Valid()
      ensures query == NewQuery(IndexedArray, fragmentName)
    {
      query := NewQuery(IndexedArray, fragmentName);
    }

    /**
     * The constructor of the source. It throws when the labels are out of
     * order; `atThrow` is the delegated query as the method leaves it, which
     * at the throw has its layout set but no buffer bound and no subarray set.
     */
    static method Create(
      dimLabel: DimensionLabel, parent: Subarray, labelBuffer: QueryBuffer,
      indexBuffer: QueryBuffer, dimIdx: nat, fragmentName: Option<string>)
      returns (r: Result<OrderedWriteDataQuery>, ghost atThrow: Query)
      requires LabelBufferReadable(dimLabel, labelBuffer)
      requires dimIdx < |parent.dims|
      ensures r.Err? <==> !LabelsInExpectedOrder(dimLabel, labelBuffer)
      ensures r.Err? ==> r.error == DataQueryStatusError(LabelsNotInOrderMessage)
      ensures r.Err? ==> atThrow.buffers == [] && atThrow.subarray.None? && atThrow.layout == Some(RowMajor)
      ensures r.Ok? ==> fresh(r.value) && r.value.Valid()
      ensures r.Ok? ==> Ok(r.value.query) == OrderedWriteConfig(dimLabel, parent, labelBuffer, indexBuffer, dimIdx, fragmentName)
    {
      var w := new OrderedWriteDataQuery(fragmentName);
      w.query := w.query.SetLayout(RowMajor);

      var sorted := IsSortedBuffer(labelBuffer, dimLabel.labelDimension.valueType,
                                   dimLabel.labelOrder == IncreasingLabels);
      if !sorted {
        return Err(DataQueryStatusError(LabelsNotInOrderMessage)), w.query;
      }
      w.query := w.query.Bind(dimLabel.labelAttribute.name, CallerBuffer(labelBuffer));

      if indexBuffer.IsNull() {
        if !parent.IsDefault(dimIdx) {
          var subarray := w.query.CurrentSubarray();
          subarray := subarray.(ops := subarray.ops + [SetRangesForDim(0, parent.RangesForDim(dimIdx))]);
          w.query := w.query.SetSubarray(subarray);
        }
      } else {
        var count := IndexPointCount(dimLabel, indexBuffer);
        var subarray := w.query.CurrentSubarray();
        subarray := subarray.(coalesceRanges := true);
        subarray := subarray.(ops := subarray.ops + [AddPointRanges(0, indexBuffer.Values(), count)]);
        w.query := w.query.SetSubarray(subarray);
      }
      return Ok(w), w.query;
    }

    function Completed(): (done: bool)
      reads this
      ensures done <==> query.status == QueryStatus.Completed
    {
      query.status == QueryStatus.Completed
    }

    /** `init` then `process` on the delegated query; a failing engine call is propagated. */
    method Process(initReply: EngineReply, processReply: EngineReply) returns (o: Outcome)
      requires Valid()
      modifies this
      ensures Valid()
      ensures !initReply.ok ==> o == Fail(EngineError(IndexedArray, InitCall)) && query == old(query).Init(initReply)
      ensures initReply.ok ==> query == old(query).Init(initReply).Process(processReply)
      ensures initReply.ok && !processReply.ok ==> o == Fail(EngineError(IndexedArray, ProcessCall))
      ensures o == Pass <==> initReply.ok && processReply.ok
    {
      query := query.Init(initReply);
      if !initReply.ok {
        return Fail(EngineError(IndexedArray, InitCall));
      }
      query := query.Process(processReply);
      if !processReply.ok {
        return Fail(EngineError(IndexedArray, ProcessCall));
      }
      return Pass;
    }

    /** The write reports completion only once the engine has been called, `init` first. */
    lemma CompletedOnlyAfterInit()
      requires Valid()
      ensures Completed() ==> query.log != [] && query.log[0] == InitCall
    {
    }

    /** Refining ranges is refused on a write, whatever the arguments. */
    method AddIndexRangesFromLabel(isPointRanges: bool, start: seq<int>, count: uint64) returns (o: Outcome)
      ensures o == Fail(DataQueryStatusError(UpdateRangesOnWriteMessage))
    {
      return Fail(DataQueryStatusError(UpdateRangesOnWriteMessage));
    }
  }

  /** The constructor throws exactly when the labels are out of the label order's direction. */
  lemma OrderedWriteRejectsIffUnsorted(
    dimLabel: DimensionLabel, parent: Subarray, labelBuffer: QueryBuffer,
    indexBuffer: QueryBuffer, dimIdx: nat, fragmentName: Option<string>)
    requires LabelBufferReadable(dimLabel, labelBuffer)
    requires dimIdx < |parent.dims|
    ensures var r := OrderedWriteConfig(dimLabel, parent, labelBuffer, indexBuffer, dimIdx, fragmentName);
      (r.Err? <==> !LabelsInExpectedOrder(dimLabel, labelBuffer)) &&
      (r.Err? ==> r.error == DataQueryStatusError(LabelsNotInOrderMessage))
  {
  }

  /** A successful ordered write targets the indexed array, ROW_MAJOR, with the label buffer bound. */
  lemma OrderedWriteShape(
    dimLabel: DimensionLabel, parent: Subarray, labelBuffer: QueryBuffer,
    indexBuffer: QueryBuffer, dimIdx: nat, fragmentName: Option<string>)
    requires LabelBufferReadable(dimLabel, labelBuffer)
    requires dimIdx < |parent.dims|
    requires LabelsInExpectedOrder(dimLabel, labelBuffer)
    ensures var q := OrderedWriteConfig(dimLabel, parent, labelBuffer, indexBuffer, dimIdx, fragmentName).value;
      q.target == IndexedArray && q.fragmentName == fragmentName && q.layout == Some(RowMajor) &&
      q.buffers == [Binding(dimLabel.labelAttribute.name, CallerBuffer(labelBuffer))] &&
      q.status == Uninitialized && q.log == []
  {
  }

  /**
   * With an index buffer, dimension 0 gets `bytes / datatype_size` point
   * ranges from it, with coalescing on, whatever the parent subarray holds.
   */
  lemma OrderedWriteUsesIndexPoints(
    dimLabel: DimensionLabel, parent: Subarray, labelBuffer: QueryBuffer,
    indexBuffer: QueryBuffer, dimIdx: nat, fragmentName: Option<string>)
    requires LabelBufferReadable(dimLabel, labelBuffer)
    requires dimIdx < |parent.dims|
    requires LabelsInExpectedOrder(dimLabel, labelBuffer)
    requires !indexBuffer.IsNull()
    ensures var q := OrderedWriteConfig(dimLabel, parent, labelBuffer, indexBuffer, dimIdx, fragmentName).value;
      q.subarray == Some(DefaultSubarray.(coalesceRanges := true, ops := [AddPointRanges(0, indexBuffer.Values(), IndexPointCount(dimLabel, indexBuffer))]))
  {
    var q := NewQuery(IndexedArray, fragmentName).SetLayout(RowMajor)
      .Bind(dimLabel.labelAttribute.name, CallerBuffer(labelBuffer));
    assert q.CurrentSubarray() == DefaultSubarray;
    var s := q.CurrentSubarray().(coalesceRanges := true);
    var op := AddPointRanges(0, indexBuffer.Values(), IndexPointCount(dimLabel, indexBuffer));
    assert s.ops + [op] == [op];
    assert OrderedWriteConfig(dimLabel, parent, labelBuffer, indexBuffer, dimIdx, fragmentName) == Ok(q.SetSubarray(s.(ops := s.ops + [op])));
  }

  /**
   * Without an index buffer, the parent's ranges for `dimIdx` are copied onto
   * dimension 0 exactly when the parent is not the default there.
   */
  lemma OrderedWriteCopiesParentRanges(
    dimLabel: DimensionLabel, parent: Subarray, labelBuffer: QueryBuffer,
    indexBuffer: QueryBuffer, dimIdx: nat, fragmentName: Option<string>)
    requires LabelBufferReadable(dimLabel, labelBuffer)
    requires dimIdx < |parent.dims|
    requires LabelsInExpectedOrder(dimLabel, labelBuffer)
    requires indexBuffer.IsNull()
    ensures var q := OrderedWriteConfig(dimLabel, parent, labelBuffer, indexBuffer, dimIdx, fragmentName).value;
      (q.subarray.Some? <==> !parent.IsDefault(dimIdx)) &&
      (q.subarray.Some? ==> q.subarray.value == DefaultSubarray.(ops := [SetRangesForDim(0, parent.RangesForDim(dimIdx))]))
  {
  }

  /**
   * Unlike the read, the ordered write does not look at pending label ranges:
   * on a non-default dimension that has them, the write copies the parent's
   * ranges while the read leaves its subarray at the default.
   */
  lemma OrderedWriteIgnoresPendingLabelRanges(
    dimLabel: DimensionLabel, parent: Subarray, labelBuffer: QueryBuffer,
    indexBuffer: QueryBuffer, dimIdx: nat, fragmentName: Option<string>)
    requires LabelBufferReadable(dimLabel, labelBuffer)
    requires dimIdx < |parent.dims|
    requires LabelsInExpectedOrder(dimLabel, labelBuffer)
    requires indexBuffer.IsNull()
    requires !parent.IsDefault(dimIdx) && parent.HasLabelRanges(dimIdx)
    ensures OrderedWriteConfig(dimLabel, parent, labelBuffer, indexBuffer, dimIdx, fragmentName).value.subarray.Some?
    ensures ReadQuery.ReadConfig(dimLabel, parent, labelBuffer, dimIdx).subarray.None?
  {
  }

  /** The ordered write consults the parent subarray only at `dimIdx`. */
  lemma OrderedWriteIgnoresOtherDimensions(
    dimLabel: DimensionLabel, p1: Subarray, p2: Subarray, labelBuffer: QueryBuffer,
    indexBuffer: QueryBuffer, dimIdx: nat, fragmentName: Option<string>)
    requires LabelBufferReadable(dimLabel, labelBuffer)
    requires dimIdx < |p1.dims| && dimIdx < |p2.dims|
    requires p1.dims[dimIdx] == p2.dims[dimIdx]
    ensures OrderedWriteConfig(dimLabel, p1, labelBuffer, indexBuffer, dimIdx, fragmentName) ==
            OrderedWriteConfig(dimLabel, p2, labelBuffer, indexBuffer, dimIdx, fragmentName)
  {
  }

  /**
   * With INCREASING_LABELS on an int64 label dimension, the labels 5, 3, 9 are
   * refused and the labels 1, 3, 9 are accepted.
   */
  lemma OrderedWriteIncreasingExample(
    dimLabel: DimensionLabel, parent: Subarray, indexBuffer: QueryBuffer,
    dimIdx: nat, fragmentName: Option<string>)
    requires dimLabel.labelOrder == IncreasingLabels
    requires dimLabel.labelDimension.valueType == Int64
    requires dimIdx < |parent.dims|
    ensures var bad := QueryBuffer(Some([5, 3, 9]), 24);
      LabelBufferReadable(dimLabel, bad) &&
      OrderedWriteConfig(dimLabel, parent, bad, indexBuffer, dimIdx, fragmentName).Err?
    ensures var good := QueryBuffer(Some([1, 3, 9]), 24);
      LabelBufferReadable(dimLabel, good) &&
      OrderedWriteConfig(dimLabel, parent, good, indexBuffer, dimIdx, fragmentName).Ok?
  {
    var bad := QueryBuffer(Some([5, 3, 9]), 24);
    assert ScannedValues(bad, Int64) == [5, 3, 9];
    assert ScannedValues(bad, Int64)[0] >= ScannedValues(bad, Int64)[1];
    var good := QueryBuffer(Some([1, 3, 9]), 24);
    assert ScannedValues(good, Int64) == [1, 3, 9];
  }
}
