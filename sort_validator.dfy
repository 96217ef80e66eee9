/**
 * The sort validator: a strict-monotonicity scan over a typed buffer whose
 * element count comes from its size in bytes, and the dispatch from a
 * datatype tag to the element type the scan is instantiated with.
 */
module SortValidator {
  import opened Common
  import opened Types

  /** The C++ element types the scan is instantiated with. */
  datatype ElementType = I8 | U8 | I16 | U16 | I32 | U32 | I64 | U64 | F32 | F64

  /** `sizeof(T)` of each element type. */
  function Width(e: ElementType): (w: nat)
    ensures 1 <= w <= 8
  {
    match e
    case I8 | U8 => 1
    case I16 | U16 => 2
    case I32 | U32 | F32 => 4
    case I64 | U64 | F64 => 8
  }

  predicate StrictlyIncreasing(s: seq<int>) {
    forall i :: 0 <= i < |s| - 1 ==> s[i] < s[i + 1]
  }

  predicate StrictlyDecreasing(s: seq<int>) {
    forall i :: 0 <= i < |s| - 1 ==> s[i] > s[i + 1]
  }

  /** Every adjacent pair is strictly ordered in the requested direction. */
  predicate StrictlyMonotone(s: seq<int>, increasing: bool) {
    if increasing then StrictlyIncreasing(s) else StrictlyDecreasing(s)
  }

  /** The independent, all-pairs reading of strict monotonicity. */
  predicate PairwiseOrdered(s: seq<int>, increasing: bool) {
    forall i, j :: 0 <= i < j < |s| ==> if increasing then s[i] < s[j] else s[i] > s[j]
  }

  /** Number of whole elements in a buffer of `size` bytes (`*buffer_size / sizeof(T)`). */
  function ElementCount(size: uint64, e: ElementType): (n: nat)
    ensures n * Width(e) <= size as int < (n + 1) * Width(e)
  {
    size as int / Width(e)
  }

  /**
   * The `is_sorted_buffer_impl` scan, as written: the loop bound
   * `num_values - 1` is computed in `uint64_t`. The code reads `buffer[1]`
   * on its first iteration unless the bound is zero, so it needs at least
   * one element (see EmptyBufferOverrun).
   */
  method IsSortedBufferImpl(e: ElementType, buffer: seq<int>, bufferSize: uint64, increasing: bool)
    returns (sorted: bool)
    requires 1 <= ElementCount(bufferSize, e) <= |buffer|
    ensures sorted <==> StrictlyMonotone(buffer[..ElementCount(bufferSize, e)], increasing)
  {
    var numValues: uint64 := bufferSize / (Width(e) as uint64);
    ghost var n := ElementCount(bufferSize, e);
    assert numValues as int == n;
    var last := Sub64(numValues, 1);
    var index: uint64 := 0;
    if increasing {
      while index < last
        invariant index <= last
        invariant forall k :: 0 <= k < index as int ==> buffer[k] < buffer[k + 1]
      {
        if buffer[index + 1] <= buffer[index] {
          assert buffer[..n][index] >= buffer[..n][index + 1];
          return false;
        }
        index := index + 1;
      }
    } else {
      while index < last
        invariant index <= last
        invariant forall k :: 0 <= k < index as int ==> buffer[k] > buffer[k + 1]
      {
        if buffer[index + 1] >= buffer[index] {
          assert buffer[..n][index] <= buffer[..n][index + 1];
          return false;
        }
        index := index + 1;
      }
    }
    return true;
  }

  /**
   * The first iteration of the as-written scan on a buffer of zero elements:
   * the bound `num_values - 1` wraps to 2^64 - 1, so the loop is entered and
   * reads `buffer[1]` and `buffer[0]`, past the end of an empty buffer.
   */
  lemma EmptyBufferOverrun(e: ElementType, bufferSize: uint64)
    requires ElementCount(bufferSize, e) == 0
    ensures Sub64((bufferSize as int / Width(e)) as uint64, 1) as int == U64Modulus - 1
    ensures 0 < Sub64((bufferSize as int / Width(e)) as uint64, 1)
    ensures bufferSize as int < Width(e)
  {
  }

  /**
   * The element type `is_sorted_buffer` instantiates the scan with, or `None`
   * for the tags that reach `stdx::unreachable()`.
   */
  function ScanType(t: Datatype): (r: Option<ElementType>)
    ensures r.Some? ==> Width(r.value) == DatatypeSize(t)
  {
    match t
    case Int8 => Some(I8)
    case UInt8 => Some(U8)
    case Int16 => Some(I16)
    case UInt16 => Some(U16)
    case Int32 => Some(I32)
    case UInt32 => Some(U32)
    case Int64 => Some(I64)
    case UInt64 => Some(U64)
    case Float32 => Some(F32)
    case Float64 => Some(F64)
    case DatetimeYear | DatetimeMonth | DatetimeWeek | DatetimeDay | DatetimeHr
       | DatetimeMin | DatetimeSec | DatetimeMs | DatetimeUs | DatetimeNs
       | DatetimePs | DatetimeFs | DatetimeAs => Some(I64)
    case TimeHr | TimeMin | TimeSec | TimeMs | TimeUs | TimeNs | TimePs | TimeFs | TimeAs => Some(I64)
    case _ => None
  }

  /** The dispatch handles exactly the integer, floating-point, DATETIME_* and TIME_* tags. */
  lemma DispatchCoverage(t: Datatype)
    ensures ScanType(t).Some? <==> IsFixedWidthInteger(t) || IsFloatingPoint(t) || IsDatetime(t) || IsTime(t)
  {
  }

  /** Every DATETIME_* and TIME_* tag is scanned as `int64_t`. */
  lemma TemporalTagsScanAsInt64(t: Datatype)
    requires IsDatetime(t) || IsTime(t)
    ensures ScanType(t) == Some(I64)
  {
  }

  /** The datatypes the dispatch handles; any other reaches `stdx::unreachable()`. */
  predicate Supported(t: Datatype) {
    ScanType(t).Some?
  }

  /** The values of `buffer` that a scan at datatype `t` inspects. */
  function ScannedValues(buffer: QueryBuffer, t: Datatype): seq<int>
    requires Supported(t)
    requires ElementCount(buffer.size, ScanType(t).value) <= |buffer.Values()|
  {
    buffer.Values()[..ElementCount(buffer.size, ScanType(t).value)]
  }

  /**
   * `is_sorted_buffer`: dispatch on the datatype tag, then scan. Corrected so
   * that a buffer with no whole element is sorted, instead of reaching the
   * overrunning scan.
   */
  method IsSortedBuffer(buffer: QueryBuffer, t: Datatype, increasing: bool) returns (sorted: bool)
    requires Supported(t)
    requires ElementCount(buffer.size, ScanType(t).value) <= |buffer.Values()|
    ensures sorted <==> StrictlyMonotone(ScannedValues(buffer, t), increasing)
  {
    var e := ScanType(t).value;
    if ElementCount(buffer.size, e) == 0 {
      return true;
    }
    sorted := IsSortedBufferImpl(e, buffer.Values(), buffer.size, increasing);
  }

  /** Adjacent-pair monotonicity is the same as all-pairs monotonicity. */
  lemma {:induction false} MonotoneIffPairwise(s: seq<int>, increasing: bool)
    ensures StrictlyMonotone(s, increasing) <==> PairwiseOrdered(s, increasing)
  {
    if StrictlyMonotone(s, increasing) {
      forall i, j | 0 <= i < j < |s|
        ensures if increasing then s[i] < s[j] else s[i] > s[j]
      {
        AdjacentToPair(s, increasing, i, j);
      }
    }
    if PairwiseOrdered(s, increasing) {
      forall i | 0 <= i < |s| - 1
        ensures if increasing then s[i] < s[i + 1] else s[i] > s[i + 1]
      {
        assert 0 <= i < i + 1 < |s|;
      }
    }
  }

  lemma {:induction false} AdjacentToPair(s: seq<int>, increasing: bool, i: int, j: int)
    requires StrictlyMonotone(s, increasing)
    requires 0 <= i < j < |s|
    ensures if increasing then s[i] < s[j] else s[i] > s[j]
    decreases j - i
  {
    if j > i + 1 {
      AdjacentToPair(s, increasing, i, j - 1);
      assert 0 <= j - 1 < |s| - 1;
    }
  }

  /** A buffer holding a single whole element is always sorted, in both directions. */
  lemma SingleElementSorted(buffer: QueryBuffer, t: Datatype, increasing: bool)
    requires Supported(t)
    requires ElementCount(buffer.size, ScanType(t).value) == 1 <= |buffer.Values()|
    ensures StrictlyMonotone(ScannedValues(buffer, t), increasing)
  {
  }

  /**
   * Trailing bytes short of a whole element are ignored: a buffer of
   * `n * sizeof(T) + r` bytes with `r < sizeof(T)` is scanned as `n` elements.
   */
  lemma PartialElementIgnored(e: ElementType, n: nat, r: nat)
    requires r < Width(e)
    requires n * Width(e) + r < U64Modulus
    ensures ElementCount((n * Width(e) + r) as uint64, e) == n
  {
  }
}
