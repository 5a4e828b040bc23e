/** What the solvers do with a solved fraction triple: quantise it to the
    requested output type, store it at the (possibly mirrored) output index,
    and the C integer conversions that the merged image goes through. */
module Output {
  import opened Mixing

  datatype Option<T> = None | Some(value: T)

  /** The output element types of libdect, in the order of their numeric codes. */
  datatype OutputType = U8 | U16 | F32 | F64

  function Code(t: OutputType): int {
    match t
    case U8 => 0
    case U16 => 1
    case F32 => 2
    case F64 => 3
  }

  /** Reads an output-type code; a value outside the enumeration is no type. */
  function DecodeOutputType(code: int): (t: Option<OutputType>)
    ensures t.Some? <==> 0 <= code < 4
    ensures t.Some? ==> Code(t.value) == code
  {
    if code == 0 then Some(U8)
    else if code == 1 then Some(U16)
    else if code == 2 then Some(F32)
    else if code == 3 then Some(F64)
    else None
  }

  lemma DecodeCode(t: OutputType)
    ensures DecodeOutputType(Code(t)) == Some(t)
  {
  }

  predicate IsInteger(t: OutputType) {
    t == U8 || t == U16
  }

  /** The value a fraction of 1 is scaled to: the largest value of an integer
      type, 1.0 for the floating types. */
  function OutputMax(t: OutputType): real {
    match t
    case U8 => 255.0
    case U16 => 65535.0
    case F32 => 1.0
    case F64 => 1.0
  }

  /** A fraction scaled to the output range: rounded down for the integer
      types, kept as it is for the floating types. */
  function Quantize(v: real, t: OutputType): (q: real)
    ensures IsInteger(t) ==> q == q.Floor as real && q <= v * OutputMax(t) < q + 1.0
    ensures !IsInteger(t) ==> q == v
  {
    if IsInteger(t) then (v * OutputMax(t)).Floor as real else v
  }

  /** A fraction in [0,1] quantises into [0, OutputMax], so the conversion to
      the output type never overflows. */
  lemma QuantizeInRange(v: real, t: OutputType)
    requires InUnit(v)
    ensures 0.0 <= Quantize(v, t) <= OutputMax(t)
  {
    if IsInteger(t) {
      assert 0.0 <= v * OutputMax(t) <= OutputMax(t);
    }
  }

  /** A fraction scaled to a byte, rounded down. */
  function Byte(v: real): (q: int)
    ensures q as real <= v * 255.0 < q as real + 1.0
  {
    (v * 255.0).Floor
  }

  lemma ByteInRange(v: real)
    requires InUnit(v)
    ensures 0 <= Byte(v) <= 255
    ensures v == 1.0 ==> Byte(v) == 255
    ensures v == 0.0 ==> Byte(v) == 0
  {
  }

  /** The output index of voxel idx: mirrored as adjust - idx when adjust is
      non-zero, unchanged otherwise. */
  function Slot(idx: int, adjust: int): int {
    if adjust != 0 then adjust - idx else idx
  }

  /** Mirroring twice is the identity, so Slot(j, adjust) names the voxel that
      is written to index j, and two voxels never share an output index. */
  lemma SlotInvolution(idx: int, adjust: int)
    ensures Slot(Slot(idx, adjust), adjust) == idx
    ensures forall k :: Slot(k, adjust) == Slot(idx, adjust) ==> k == idx
  {
  }

  /** With adjust = n - 1 the n voxels are written to the n indices of the
      output in reverse order: every index is written exactly once. */
  lemma MirrorCovers(n: int, adjust: int)
    requires n >= 1 && adjust == n - 1
    ensures SlotsFit(n, adjust, n)
    ensures forall j :: 0 <= j < n ==> 0 <= Slot(j, adjust) < n && Slot(Slot(j, adjust), adjust) == j
  {
  }

  /** Every voxel below n has its output index inside an array of length len. */
  predicate SlotsFit(n: int, adjust: int, len: int) {
    forall i :: 0 <= i < n ==> 0 <= Slot(i, adjust) < len
  }

  /** The state of an output image after voxels 0 .. n - 1 were stored: the
      output index of voxel i holds vals[i], and every index that none of
      them writes still holds its value from before. */
  ghost predicate Placed<T>(out: seq<T>, before: seq<T>, vals: seq<T>, n: int, adjust: int)
    requires 0 <= n <= |vals| && |out| == |before| && SlotsFit(n, adjust, |out|)
  {
    (forall i :: 0 <= i < n ==> out[Slot(i, adjust)] == vals[i]) &&
    (forall j :: 0 <= j < |out| && !(0 <= Slot(j, adjust) < n) ==> out[j] == before[j])
  }

  /** Storing voxel i's value at its output index extends the stored prefix
      by one voxel. */
  lemma PlacedStep<T>(out: seq<T>, prev: seq<T>, before: seq<T>, vals: seq<T>, i: int, adjust: int)
    requires 0 <= i < |vals| && |prev| == |before| && SlotsFit(i + 1, adjust, |prev|)
    requires Placed(prev, before, vals, i, adjust)
    requires out == prev[Slot(i, adjust) := vals[i]]
    ensures Placed(out, before, vals, i + 1, adjust)
  {
    SlotInvolution(i, adjust);
  }

  /** Fraction a, b or c of a triple, for output x (0), y (1) or z (2). */
  function Component(f: Fractions, component: int): real {
    if component == 0 then f.a else if component == 1 then f.b else f.c
  }

  /** The merged-image value: the two inputs weighted by mr and 1 - mr. */
  function MergeValue(av: int, bv: int, mr: real): real {
    av as real * mr + bv as real * (1.0 - mr)
  }

  /** The C conversion of a floating value to an integer type: truncation
      toward zero. */
  function Trunc(r: real): (t: int)
    ensures r >= 0.0 ==> t as real <= r < t as real + 1.0
    ensures r < 0.0 ==> t as real - 1.0 < r <= t as real
  {
    if r >= 0.0 then r.Floor else -((-r).Floor)
  }

  predicate InInt16(v: int) {
    -32768 <= v < 32768
  }

  predicate InUint16(v: int) {
    0 <= v < 65536
  }

  /** A uint16 value stored in an int16 element: values from 32768 up wrap
      to negative ones. */
  function Wrap16(v: int): (w: int)
    requires InUint16(v)
    ensures InInt16(w)
    ensures (w - v) % 65536 == 0
    ensures v < 32768 <==> w == v
  {
    if v >= 32768 then v - 65536 else v
  }
}
