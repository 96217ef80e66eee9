/**
 * UnorderedWriteDataQuery: writes to an unordered dimension label through two
 * delegated queries, one on the indexed array and one on the labelled array,
 * synthesizing the index values when the caller gives none.
 */
module UnorderedWrite {
  import opened Common
  import opened Types
  import opened DelegatedQuery

  /** One engine call on one of the two delegated queries. */
  datatype Step = Step(target: ArrayKind, call: EngineCall)

  /** The calls of a trace that were made on the query targeting `a`, in order. */
  function CallsOn(trace: seq<Step>, a: ArrayKind): seq<EngineCall>
  {
    if trace == [] then []
    else
      var last := trace[|trace| - 1];
      CallsOn(trace[..|trace| - 1], a) + (if last.target == a then [last.call] else [])
  }

  /** The order in which `process()` makes its engine calls. */
  const ProcessOrder: seq<Step> := [
    Step(IndexedArray, InitCall), Step(IndexedArray, ProcessCall),
    Step(LabelledArray, InitCall), Step(LabelledArray, ProcessCall)]

  /** How many of the calls of ProcessOrder are made, given the engine's replies. */
  function StepsTaken(r1: EngineReply, r2: EngineReply, r3: EngineReply): (n: nat)
    ensures 1 <= n <= 4
  {
    if !r1.ok then 1 else if !r2.ok then 2 else if !r3.ok then 3 else 4
  }

  /** The labelled array is initialised only right after the indexed array was processed. */
  ghost predicate LabelledInitFollowsIndexedProcess(trace: seq<Step>) {
    forall j :: 0 <= j < |trace| && trace[j] == Step(LabelledArray, InitCall) ==>
      0 < j && trace[j - 1] == Step(IndexedArray, ProcessCall)
  }

  /** The two delegated queries and the synthesized index an unordered write owns. */
  datatype UnorderedSetup = UnorderedSetup(
    indexedArrayQuery: Query, labelledArrayQuery: Query, indexData: Option<IndexData>)

  /** No index buffer, and a parent that is not the default on `dimIdx` and holds other than one range there. */
  predicate RejectsRanges(parent: Subarray, indexBuffer: QueryBuffer, dimIdx: nat)
    requires dimIdx < |parent.dims|
  {
    indexBuffer.IsNull() && !parent.IsDefault(dimIdx) && |parent.RangesForDim(dimIdx)| != 1
  }

  /** The queries the constructor configures, or the exception it throws. */
  function UnorderedWriteConfig(
    dimLabel: DimensionLabel, parent: Subarray, labelBuffer: QueryBuffer,
    indexBuffer: QueryBuffer, dimIdx: nat, fragmentName: Option<string>): Result<UnorderedSetup>
    requires parent.WellFormed() && dimIdx < |parent.dims|
  {
    if RejectsRanges(parent, indexBuffer, dimIdx) then
      Err(DataQueryStatusError(SingleRangeMessage))
    else
      var indexData :=
        if indexBuffer.IsNull()
        then Some(MakeIndexData(dimLabel.indexDimension.valueType, parent.RangesForDim(dimIdx)[0]))
        else None;
      var index := if indexData.Some? then OwnedIndexData(indexData.value) else CallerBuffer(indexBuffer);
      var labelled := NewQuery(LabelledArray, fragmentName).SetLayout(Unordered)
        .Bind(dimLabel.labelDimension.name, CallerBuffer(labelBuffer))
        .Bind(dimLabel.indexAttribute.name, index);
      var indexed := NewQuery(IndexedArray, fragmentName).SetLayout(Unordered)
        .Bind(dimLabel.labelAttribute.name, CallerBuffer(labelBuffer))
        .Bind(dimLabel.indexDimension.name, index);
      Ok(UnorderedSetup(indexed, labelled, indexData))
  }

  lemma ExtendPrefix(t0: seq<Step>, k: nat)
    requires k < |ProcessOrder|
    ensures (t0 + ProcessOrder[..k]) + [ProcessOrder[k]] == t0 + ProcessOrder[..k + 1]
  {
    assert ProcessOrder[..k + 1] == ProcessOrder[..k] + [ProcessOrder[k]];
  }

  lemma CallsOnAppend(trace: seq<Step>, s: Step, a: ArrayKind)
    ensures CallsOn(trace + [s], a) == CallsOn(trace, a) + (if s.target == a then [s.call] else [])
  {
    assert (trace + [s])[..|trace|] == trace;
  }

  /** Every call recorded for `a` comes from a step of the trace on `a`. */
  lemma {:induction false} CallsOnSource(trace: seq<Step>, a: ArrayKind, k: nat)
    requires k < |CallsOn(trace, a)|
    ensures exists j :: 0 <= j < |trace| && trace[j] == Step(a, CallsOn(trace, a)[k])
  {
    var prefix := trace[..|trace| - 1];
    var last := trace[|trace| - 1];
    if k < |CallsOn(prefix, a)| {
      CallsOnSource(prefix, a, k);
      var j :| 0 <= j < |prefix| && prefix[j] == Step(a, CallsOn(prefix, a)[k]);
      assert trace[j] == Step(a, CallsOn(trace, a)[k]);
    } else {
      assert last.target == a && CallsOn(trace, a)[k] == last.call;
      assert trace[|trace| - 1] == Step(a, CallsOn(trace, a)[k]);
    }
  }

  class UnorderedWriteDataQuery {
    var indexedArrayQuery: Query
    var labelledArrayQuery: Query
    var indexData: Option<IndexData>
    /** Every engine call made on either query, in the order made. */
    ghost var trace: seq<Step>

    function Setup(): UnorderedSetup
      reads this
    {
      UnorderedSetup(indexedArrayQuery, labelledArrayQuery, indexData)
    }

    ghost predicate Valid()
      reads this
    {
      indexedArrayQuery.target == IndexedArray && labelledArrayQuery.target == LabelledArray &&
      indexedArrayQuery.Valid() && labelledArrayQuery.Valid() &&
      CallsOn(trace, IndexedArray) == indexedArrayQuery.log &&
      CallsOn(trace, LabelledArray) == labelledArrayQuery.log &&
      LabelledInitFollowsIndexedProcess(trace)
    }

    /** The member initialisers: a fresh query on each array, no index data. */
    constructor (fragmentName: Option<string>)
      ensures Valid() && trace == []
      ensures Setup() == UnorderedSetup(
        NewQuery(IndexedArray, fragmentName), NewQuery(LabelledArray, fragmentName), None)
    {
      indexedArrayQuery := NewQuery(IndexedArray, fragmentName);
      labelledArrayQuery := NewQuery(LabelledArray, fragmentName);
      indexData := None;
      trace := [];
    }

    /** The constructor of the source; it throws when an index cannot be synthesized from one range. */
    static method Create(
      dimLabel: DimensionLabel, parent: Subarray, labelBuffer: QueryBuffer,
      indexBuffer: QueryBuffer, dimIdx: nat, fragmentName: Option<string>)
      returns (r: Result<UnorderedWriteDataQuery>)
      requires parent.WellFormed() && dimIdx < |parent.dims|
      ensures r.Err? <==> RejectsRanges(parent, indexBuffer, dimIdx)
      ensures r.Err? ==> r.error == DataQueryStatusError(SingleRangeMessage)
      ensures r.Ok? ==> fresh(r.value) && r.value.Valid() && r.value.trace == []
      ensures r.Ok? ==>
        (Ok(r.value.Setup()) == UnorderedWriteConfig(dimLabel, parent, labelBuffer, indexBuffer, dimIdx, fragmentName))
    {
      var w := new UnorderedWriteDataQuery(fragmentName);

      var useLocalIndex := indexBuffer.IsNull();
      if useLocalIndex {
        if !parent.IsDefault(dimIdx) {
          var ranges := parent.RangesForDim(dimIdx);
          if |ranges| != 1 {
            return Err(DataQueryStatusError(SingleRangeMessage));
          }
        }
        w.indexData := Some(MakeIndexData(dimLabel.indexDimension.valueType, parent.RangesForDim(dimIdx)[0]));
      }

      w.labelledArrayQuery := w.labelledArrayQuery.SetLayout(Unordered);
      w.labelledArrayQuery := w.labelledArrayQuery.Bind(dimLabel.labelDimension.name, CallerBuffer(labelBuffer));
      if useLocalIndex {
        w.labelledArrayQuery := w.labelledArrayQuery.Bind(dimLabel.indexAttribute.name, OwnedIndexData(w.indexData.value));
      } else {
        w.labelledArrayQuery := w.labelledArrayQuery.Bind(dimLabel.indexAttribute.name, CallerBuffer(indexBuffer));
      }

      w.indexedArrayQuery := w.indexedArrayQuery.SetLayout(Unordered);
      w.indexedArrayQuery := w.indexedArrayQuery.Bind(dimLabel.labelAttribute.name, CallerBuffer(labelBuffer));
      if useLocalIndex {
        w.indexedArrayQuery := w.indexedArrayQuery.Bind(dimLabel.indexDimension.name, OwnedIndexData(w.indexData.value));
      } else {
        w.indexedArrayQuery := w.indexedArrayQuery.Bind(dimLabel.indexDimension.name, CallerBuffer(indexBuffer));
      }
      return Ok(w);
    }

    /** Refining ranges is refused on a write, whatever the arguments. */
    method AddIndexRangesFromLabel(isPointRanges: bool, start: seq<int>, count: uint64) returns (o: Outcome)
      ensures o == Fail(DataQueryStatusError(UpdateRangesOnWriteMessage))
    {
      return Fail(DataQueryStatusError(UpdateRangesOnWriteMessage));
    }

    function Completed(): (done: bool)
      reads this
      ensures done <==> indexedArrayQuery.status == QueryStatus.Completed &&
                        labelledArrayQuery.status == QueryStatus.Completed
    {
      indexedArrayQuery.status == QueryStatus.Completed &&
      labelledArrayQuery.status == QueryStatus.Completed
    }

    /**
     * Writes the indexed array (`init`, `process`), then the labelled array
     * (`init`, `process`), stopping at the first failing engine call, which
     * is propagated. Nothing is undone when the labelled-array write fails.
     */
    method Process(r1: EngineReply, r2: EngineReply, r3: EngineReply, r4: EngineReply)
      returns (o: Outcome)
      requires Valid()
      modifies this
      ensures Valid()
      ensures trace == old(trace) + ProcessOrder[..StepsTaken(r1, r2, r3)]
      ensures o == Pass <==> r1.ok && r2.ok && r3.ok && r4.ok
      ensures o.Fail? ==> o.error == EngineError(
        ProcessOrder[StepsTaken(r1, r2, r3) - 1].target, ProcessOrder[StepsTaken(r1, r2, r3) - 1].call)
      ensures indexedArrayQuery ==
        if r1.ok then old(indexedArrayQuery).Init(r1).Process(r2) else old(indexedArrayQuery).Init(r1)
      ensures labelledArrayQuery ==
        if !(r1.ok && r2.ok) then old(labelledArrayQuery)
        else if r3.ok then old(labelledArrayQuery).Init(r3).Process(r4)
        else old(labelledArrayQuery).Init(r3)
      ensures indexData == old(indexData)
    {
      ghost var t0 := trace;
      assert t0 + ProcessOrder[..0] == t0;
      Invoke(IndexedArray, InitCall, r1);
      ExtendPrefix(t0, 0);
      if !r1.ok {
        return Fail(EngineError(IndexedArray, InitCall));
      }
      Invoke(IndexedArray, ProcessCall, r2);
      ExtendPrefix(t0, 1);
      if !r2.ok {
        return Fail(EngineError(IndexedArray, ProcessCall));
      }

      Invoke(LabelledArray, InitCall, r3);
      ExtendPrefix(t0, 2);
      if !r3.ok {
        return Fail(EngineError(LabelledArray, InitCall));
      }
      Invoke(LabelledArray, ProcessCall, r4);
      ExtendPrefix(t0, 3);
      if !r4.ok {
        return Fail(EngineError(LabelledArray, ProcessCall));
      }
      return Pass;
    }

    /**
     * One engine call on the query targeting `a`, recorded in the trace. A
     * `process` call needs an earlier `init` on that query, and the labelled
     * array is initialised only right after the indexed array was processed.
     */
    method Invoke(a: ArrayKind, call: EngineCall, reply: EngineReply)
      requires Valid()
      requires call == ProcessCall ==>
        (if a == IndexedArray then indexedArrayQuery.log else labelledArrayQuery.log) != []
      requires Step(a, call) == Step(LabelledArray, InitCall) ==>
        |trace| > 0 && trace[|trace| - 1] == Step(IndexedArray, ProcessCall)
      modifies this
      ensures Valid()
      ensures trace == old(trace) + [Step(a, call)]
      ensures indexedArrayQuery ==
        if a == IndexedArray then old(indexedArrayQuery).Call(call, reply) else old(indexedArrayQuery)
      ensures labelledArrayQuery ==
        if a == LabelledArray then old(labelledArrayQuery).Call(call, reply) else old(labelledArrayQuery)
      ensures indexData == old(indexData)
    {
      if a == IndexedArray {
        indexedArrayQuery := indexedArrayQuery.Call(call, reply);
      } else {
        labelledArrayQuery := labelledArrayQuery.Call(call, reply);
      }
      CallsOnAppend(trace, Step(a, call), IndexedArray);
      CallsOnAppend(trace, Step(a, call), LabelledArray);
      trace := trace + [Step(a, call)];
    }

    /**
     * Completion is reported only after the whole write ran in order: the
     * labelled array was initialised right after the indexed array was processed.
     */
    lemma CompletedOnlyAfterIndexedWrite()
      requires Valid()
      ensures Completed() ==>
        exists j :: 0 < j < |trace| &&
          trace[j] == Step(LabelledArray, InitCall) && trace[j - 1] == Step(IndexedArray, ProcessCall)
    {
      if Completed() {
        assert labelledArrayQuery.log != [] && labelledArrayQuery.log[0] == InitCall;
        CallsOnSource(trace, LabelledArray, 0);
        var j :| 0 <= j < |trace| && trace[j] == Step(LabelledArray, CallsOn(trace, LabelledArray)[0]);
        assert trace[j] == Step(LabelledArray, InitCall);
        assert 0 < j && trace[j - 1] == Step(IndexedArray, ProcessCall);
      }
    }
  }

  /**
   * The constructor throws exactly when it would synthesize an index from a
   * parent dimension that is not the default and holds other than one range.
   */
  lemma UnorderedRejectsIffNotSingleRange(
    dimLabel: DimensionLabel, parent: Subarray, labelBuffer: QueryBuffer,
    indexBuffer: QueryBuffer, dimIdx: nat, fragmentName: Option<string>)
    requires parent.WellFormed() && dimIdx < |parent.dims|
    ensures var r := UnorderedWriteConfig(dimLabel, parent, labelBuffer, indexBuffer, dimIdx, fragmentName);
      (r.Err? <==> indexBuffer.IsNull() && !parent.IsDefault(dimIdx) && |parent.RangesForDim(dimIdx)| != 1) &&
      (r.Err? ==> r.error == DataQueryStatusError(SingleRangeMessage))
  {
  }

  /**
   * Both queries use UNORDERED layout and bind the same label and index
   * sources, with the dimension and attribute roles swapped: the indexed
   * array takes labels as an attribute and indices as its dimension, the
   * labelled array the other way round.
   */
  lemma UnorderedRolesSwapped(
    dimLabel: DimensionLabel, parent: Subarray, labelBuffer: QueryBuffer,
    indexBuffer: QueryBuffer, dimIdx: nat, fragmentName: Option<string>)
    requires parent.WellFormed() && dimIdx < |parent.dims|
    requires !RejectsRanges(parent, indexBuffer, dimIdx)
    ensures var s := UnorderedWriteConfig(dimLabel, parent, labelBuffer, indexBuffer, dimIdx, fragmentName).value;
      var indexed := s.indexedArrayQuery;
      var labelled := s.labelledArrayQuery;
      indexed.target == IndexedArray && labelled.target == LabelledArray &&
      indexed.fragmentName == fragmentName && labelled.fragmentName == fragmentName &&
      indexed.layout == Some(Unordered) && labelled.layout == Some(Unordered) &&
      indexed.subarray.None? && labelled.subarray.None? &&
      |indexed.buffers| == 2 && |labelled.buffers| == 2 &&
      indexed.buffers[0] == Binding(dimLabel.labelAttribute.name, CallerBuffer(labelBuffer)) &&
      labelled.buffers[0] == Binding(dimLabel.labelDimension.name, CallerBuffer(labelBuffer)) &&
      indexed.buffers[1].name == dimLabel.indexDimension.name &&
      labelled.buffers[1].name == dimLabel.indexAttribute.name &&
      indexed.buffers[1].source == labelled.buffers[1].source
  {
  }

  /** With an index buffer, both queries bind it directly and no index is synthesized. */
  lemma UnorderedBindsCallerIndex(
    dimLabel: DimensionLabel, parent: Subarray, labelBuffer: QueryBuffer,
    indexBuffer: QueryBuffer, dimIdx: nat, fragmentName: Option<string>)
    requires parent.WellFormed() && dimIdx < |parent.dims|
    requires !indexBuffer.IsNull()
    ensures var r := UnorderedWriteConfig(dimLabel, parent, labelBuffer, indexBuffer, dimIdx, fragmentName);
      r.Ok? && r.value.indexData.None? &&
      r.value.indexedArrayQuery.buffers[1].source == CallerBuffer(indexBuffer) &&
      r.value.labelledArrayQuery.buffers[1].source == CallerBuffer(indexBuffer)
  {
  }

  /**
   * Without an index buffer, the index is synthesized from the parent's one
   * range for `dimIdx`: one value per position of the range, owned by the
   * query and bound to both arrays.
   */
  lemma UnorderedSynthesizesIndex(
    dimLabel: DimensionLabel, parent: Subarray, labelBuffer: QueryBuffer,
    indexBuffer: QueryBuffer, dimIdx: nat, fragmentName: Option<string>)
    requires parent.WellFormed() && dimIdx < |parent.dims|
    requires indexBuffer.IsNull()
    requires !RejectsRanges(parent, indexBuffer, dimIdx)
    ensures |parent.RangesForDim(dimIdx)| == 1
    ensures var s := UnorderedWriteConfig(dimLabel, parent, labelBuffer, indexBuffer, dimIdx, fragmentName).value;
      var range := parent.RangesForDim(dimIdx)[0];
      s.indexData.Some? &&
      |s.indexData.value.values| == (if range.start <= range.end then range.end - range.start + 1 else 0) &&
      (forall i :: 0 <= i < |s.indexData.value.values| ==> s.indexData.value.values[i] == range.start + i) &&
      s.indexedArrayQuery.buffers[1].source == OwnedIndexData(s.indexData.value) &&
      s.labelledArrayQuery.buffers[1].source == OwnedIndexData(s.indexData.value)
  {
  }

  /** The unordered write consults the parent subarray only at `dimIdx`. */
  lemma UnorderedIgnoresOtherDimensions(
    dimLabel: DimensionLabel, p1: Subarray, p2: Subarray, labelBuffer: QueryBuffer,
    indexBuffer: QueryBuffer, dimIdx: nat, fragmentName: Option<string>)
    requires p1.WellFormed() && p2.WellFormed()
    requires dimIdx < |p1.dims| && dimIdx < |p2.dims|
    requires p1.dims[dimIdx] == p2.dims[dimIdx]
    ensures UnorderedWriteConfig(dimLabel, p1, labelBuffer, indexBuffer, dimIdx, fragmentName) ==
            UnorderedWriteConfig(dimLabel, p2, labelBuffer, indexBuffer, dimIdx, fragmentName)
  {
  }
}
