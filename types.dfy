/**
 * The external entities the data-query layer consumes: datatype tags, the
 * dimension-label description, caller buffers, the parent subarray, and the
 * synthesized index data of an unordered write.
 */
module Types {
  import opened Common

  /** The storage engine's datatype tags. */
  datatype Datatype =
    | Int32 | Int64 | Float32 | Float64 | Char
    | Int8 | UInt8 | Int16 | UInt16 | UInt32 | UInt64
    | StringAscii | StringUtf8 | StringUtf16 | StringUtf32 | StringUcs2 | StringUcs4
    | Any
    | DatetimeYear | DatetimeMonth | DatetimeWeek | DatetimeDay | DatetimeHr
    | DatetimeMin | DatetimeSec | DatetimeMs | DatetimeUs | DatetimeNs
    | DatetimePs | DatetimeFs | DatetimeAs
    | TimeHr | TimeMin | TimeSec | TimeMs | TimeUs | TimeNs | TimePs | TimeFs | TimeAs
    | Blob | Bool | GeomWkb | GeomWkt

  predicate IsDatetime(t: Datatype) {
    t.DatetimeYear? || t.DatetimeMonth? || t.DatetimeWeek? || t.DatetimeDay? ||
    t.DatetimeHr? || t.DatetimeMin? || t.DatetimeSec? || t.DatetimeMs? ||
    t.DatetimeUs? || t.DatetimeNs? || t.DatetimePs? || t.DatetimeFs? || t.DatetimeAs?
  }

  predicate IsTime(t: Datatype) {
    t.TimeHr? || t.TimeMin? || t.TimeSec? || t.TimeMs? || t.TimeUs? ||
    t.TimeNs? || t.TimePs? || t.TimeFs? || t.TimeAs?
  }

  predicate IsFixedWidthInteger(t: Datatype) {
    t.Int8? || t.UInt8? || t.Int16? || t.UInt16? ||
    t.Int32? || t.UInt32? || t.Int64? || t.UInt64?
  }

  predicate IsFloatingPoint(t: Datatype) {
    t.Float32? || t.Float64?
  }

  /**
   * Size in bytes of one value of a datatype (the engine's `datatype_size`;
   * the enumeration header is not part of this model, the widths below are
   * the fixed widths of the tags).
   */
  function DatatypeSize(t: Datatype): (n: nat)
    ensures 1 <= n <= 8
  {
    match t
    case Int8 | UInt8 | Char | Bool | Blob | Any | GeomWkb | GeomWkt => 1
    case StringAscii | StringUtf8 => 1
    case Int16 | UInt16 | StringUtf16 | StringUcs2 => 2
    case Int32 | UInt32 | Float32 | StringUtf32 | StringUcs4 => 4
    case Int64 | UInt64 | Float64 => 8
    case _ => 8 // every DATETIME_* and TIME_* tag is stored as a 64-bit integer
  }

  datatype LabelOrder = IncreasingLabels | DecreasingLabels | UnorderedLabels

  /** A named, typed dimension or attribute of one of the two label arrays. */
  datatype Descriptor = Descriptor(name: string, valueType: Datatype)

  /**
   * A dimension label: the indexed array (dense, dimension = index, attribute =
   * label) and the labelled array (sparse, dimension = label, attribute = index).
   */
  datatype DimensionLabel = DimensionLabel(
    labelOrder: LabelOrder,
    indexDimension: Descriptor,
    labelAttribute: Descriptor,
    labelDimension: Descriptor,
    indexAttribute: Descriptor)

  /**
   * A caller's buffer: the data pointer (`None` for a null pointer), seen as
   * values of the buffer's element type, and the size in bytes it reports.
   */
  datatype QueryBuffer = QueryBuffer(data: Option<seq<int>>, size: uint64)
  {
    predicate IsNull() { data.None? }

    /** The values reachable through the data pointer (none for a null pointer). */
    function Values(): seq<int> {
      if data.Some? then data.value else []
    }
  }

  /** One range of a subarray, on a single dimension (an opaque start/end pair). */
  datatype Range = Range(start: int, end: int)

  /**
   * What a subarray holds for one dimension: its ranges, whether they are the
   * implicit default (the whole domain), and whether label ranges are pending
   * resolution on it.
   */
  datatype DimRanges = DimRanges(ranges: seq<Range>, isDefault: bool, hasLabelRanges: bool)

  /** The user's (parent) subarray over every dimension of the array. */
  datatype Subarray = Subarray(dims: seq<DimRanges>)
  {
    /** The subarray's own invariant: a default dimension holds the single domain range. */
    predicate WellFormed() {
      forall d :: 0 <= d < |dims| && dims[d].isDefault ==> |dims[d].ranges| == 1
    }

    predicate IsDefault(d: nat) requires d < |dims| { dims[d].isDefault }

    predicate HasLabelRanges(d: nat) requires d < |dims| { dims[d].hasLabelRanges }

    function RangesForDim(d: nat): seq<Range> requires d < |dims| { dims[d].ranges }
  }

  /** Index values synthesized for an unordered write, with their size in bytes. */
  datatype IndexData = IndexData(values: seq<int>, dataSize: nat)

  /** The dense run of index values `start, start + 1, ..., end`. */
  function DenseRun(start: int, end: int): (s: seq<int>)
    ensures |s| == if start <= end then end - start + 1 else 0
    ensures forall i :: 0 <= i < |s| ==> s[i] == start + i
    decreases end - start
  {
    if start > end then [] else [start] + DenseRun(start + 1, end)
  }

  /**
   * The index synthesizer (`IndexDataCreate::make_index_data`, not part of this
   * model): a dense sequence of native index values covering one range.
   */
  function MakeIndexData(t: Datatype, r: Range): (d: IndexData)
    ensures |d.values| == if r.start <= r.end then r.end - r.start + 1 else 0
    ensures forall i :: 0 <= i < |d.values| ==> d.values[i] == r.start + i
    ensures d.dataSize == |d.values| * DatatypeSize(t)
  {
    var values := DenseRun(r.start, r.end);
    IndexData(values, |values| * DatatypeSize(t))
  }
}
