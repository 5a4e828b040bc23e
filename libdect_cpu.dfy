/** The older double-precision CPU solver of libdect/cpu.cpp: the same scan,
    descent and averaging as the template, but on the raw measured pair (no
    clamp to the coefficient range), byte output only, and a merged image that
    goes through a uint16 conversion before it is stored as int16. */
module LibdectCpu {
  import opened Mixing
  import opened Search
  import opened Output

  /** The averaged fractions found for voxel k. */
  ghost function CpuResult(m: Coeffs, a: seq<int>, b: seq<int>, k: int, enhanced: int, minStep: real): Fractions
    requires minStep > 0.0 && enhanced <= 3
    requires 0 <= k < |a| && k < |b|
  {
    SearchResult(m, a[k] as real, b[k] as real, enhanced, minStep)
  }

  /** The bytes stored for voxels 0 .. n - 1 in output x (0), y (1) or z (2). */
  ghost function CpuOutputs(m: Coeffs, a: seq<int>, b: seq<int>, n: nat, enhanced: int, minStep: real,
                            component: int): seq<int>
    requires minStep > 0.0 && enhanced <= 3
    requires n <= |a| && n <= |b|
  {
    seq(n, k requires 0 <= k < n => Byte(Component(CpuResult(m, a, b, k, enhanced, minStep), component)))
  }

  /** Voxel k's merge, read from the inputs at k itself, must fit a uint16. */
  predicate MergeFits(a: seq<int>, b: seq<int>, n: int, mr: real)
    requires n <= |a| && n <= |b|
  {
    forall k :: 0 <= k < n ==> InUint16(Trunc(MergeValue(a[k], b[k], mr)))
  }

  /** The merged values stored for voxels 0 .. n - 1: the uint16 value seen
      as an int16. */
  function CpuMerges(a: seq<int>, b: seq<int>, n: nat, mr: real): seq<int>
    requires n <= |a| && n <= |b| && MergeFits(a, b, n, mr)
  {
    seq(n, k requires 0 <= k < n => Wrap16(Trunc(MergeValue(a[k], b[k], mr))))
  }

  /** Every stored byte is in [0, 255]; with no run every byte is zero. */
  lemma CpuVoxelSound(m: Coeffs, a: seq<int>, b: seq<int>, k: int, enhanced: int, minStep: real)
    requires minStep > 0.0 && enhanced <= 3
    requires 0 <= k < |a| && k < |b|
    ensures var f := CpuResult(m, a, b, k, enhanced, minStep);
      forall c :: 0 <= c < 3 ==> 0 <= Byte(Component(f, c)) <= 255 && (enhanced <= 0 ==> Byte(Component(f, c)) == 0)
  {
    SearchResultSound(m, a[k] as real, b[k] as real, enhanced, minStep);
    var f := CpuResult(m, a, b, k, enhanced, minStep);
    if 1 <= enhanced {
      ByteInRange(f.a);
      ByteInRange(f.b);
      ByteInRange(f.c);
    }
  }

  /** Solves voxel idx and stores its bytes, and optionally its merged value,
      at the voxel's output index. */
  method Voxel(enhanced: int, a: seq<int>, b: seq<int>, m: Coeffs, idx: int,
               x: array<int>, y: array<int>, z: array<int>, minStep: real,
               merge: array?<int>, mr: real, adjust: int)
    requires minStep > 0.0 && enhanced <= 3
    requires 0 <= idx < |a| && idx < |b|
    requires x != y && y != z && x != z && merge != x && merge != y && merge != z
    requires 0 <= Slot(idx, adjust) < x.Length && Slot(idx, adjust) < y.Length && Slot(idx, adjust) < z.Length
    requires merge != null ==> Slot(idx, adjust) < merge.Length && InUint16(Trunc(MergeValue(a[idx], b[idx], mr)))
    modifies x, y, z, merge
    ensures var s, f := Slot(idx, adjust), CpuResult(m, a, b, idx, enhanced, minStep);
      x[..] == old(x[..])[s := Byte(f.a)] &&
      y[..] == old(y[..])[s := Byte(f.b)] &&
      z[..] == old(z[..])[s := Byte(f.c)]
    ensures merge != null ==>
      merge[..] == old(merge[..])[Slot(idx, adjust) := Wrap16(Trunc(MergeValue(a[idx], b[idx], mr)))]
  {
    var f := SearchVoxel(m, a[idx] as real, b[idx] as real, enhanced, minStep);
    var s := Slot(idx, adjust);
    x[s] := Byte(f.a);
    y[s] := Byte(f.b);
    z[s] := Byte(f.c);
    if merge != null {
      merge[s] := Wrap16(Trunc(MergeValue(a[idx], b[idx], mr)));
    }
  }

  /** Voxel i of the batch: extends what voxels 0 .. i - 1 stored (over the
      batch's initial contents x0, y0, z0 and m0) by voxel i. */
  method Step(enhanced: int, a: seq<int>, b: seq<int>, m: Coeffs, i: int,
              x: array<int>, y: array<int>, z: array<int>, minStep: real,
              merge: array?<int>, mr: real, adjust: int, n: int,
              ghost x0: seq<int>, ghost y0: seq<int>, ghost z0: seq<int>, ghost m0: seq<int>)
    requires minStep > 0.0 && enhanced <= 3
    requires 0 <= i < n <= |a| && n <= |b|
    requires x != y && y != z && x != z && merge != x && merge != y && merge != z
    requires |x0| == x.Length && |y0| == y.Length && |z0| == z.Length
    requires SlotsFit(n, adjust, x.Length) && SlotsFit(n, adjust, y.Length) && SlotsFit(n, adjust, z.Length)
    requires merge != null ==> |m0| == merge.Length && SlotsFit(n, adjust, merge.Length) && MergeFits(a, b, n, mr)
    requires Placed(x[..], x0, CpuOutputs(m, a, b, n, enhanced, minStep, 0), i, adjust)
    requires Placed(y[..], y0, CpuOutputs(m, a, b, n, enhanced, minStep, 1), i, adjust)
    requires Placed(z[..], z0, CpuOutputs(m, a, b, n, enhanced, minStep, 2), i, adjust)
    requires merge != null ==> Placed(merge[..], m0, CpuMerges(a, b, n, mr), i, adjust)
    modifies x, y, z, merge
    ensures Placed(x[..], x0, CpuOutputs(m, a, b, n, enhanced, minStep, 0), i + 1, adjust)
    ensures Placed(y[..], y0, CpuOutputs(m, a, b, n, enhanced, minStep, 1), i + 1, adjust)
    ensures Placed(z[..], z0, CpuOutputs(m, a, b, n, enhanced, minStep, 2), i + 1, adjust)
    ensures merge != null ==> Placed(merge[..], m0, CpuMerges(a, b, n, mr), i + 1, adjust)
  {
    ghost var x1, y1, z1 := x[..], y[..], z[..];
    ghost var m1 := if merge != null then merge[..] else [];
    Voxel(enhanced, a, b, m, i, x, y, z, minStep, merge, mr, adjust);
    PlacedStep(x[..], x1, x0, CpuOutputs(m, a, b, n, enhanced, minStep, 0), i, adjust);
    PlacedStep(y[..], y1, y0, CpuOutputs(m, a, b, n, enhanced, minStep, 1), i, adjust);
    PlacedStep(z[..], z1, z0, CpuOutputs(m, a, b, n, enhanced, minStep, 2), i, adjust);
    if merge != null {
      PlacedStep(merge[..], m1, m0, CpuMerges(a, b, n, mr), i, adjust);
    }
  }

  /** dect_algo_cpu_iter of libdect/cpu.cpp: solves voxels 0 .. outSize - 1
      in order and returns 0. */
  method Iter(enhanced: int, a: seq<int>, b: seq<int>, m: Coeffs,
              x: array<int>, y: array<int>, z: array<int>, outSize: nat, minStep: real,
              merge: array?<int>, mr: real, adjust: int) returns (r: int)
    requires minStep > 0.0 && enhanced <= 3
    requires outSize <= |a| && outSize <= |b|
    requires x != y && y != z && x != z && merge != x && merge != y && merge != z
    requires SlotsFit(outSize, adjust, x.Length) && SlotsFit(outSize, adjust, y.Length) && SlotsFit(outSize, adjust, z.Length)
    requires merge != null ==> SlotsFit(outSize, adjust, merge.Length) && MergeFits(a, b, outSize, mr)
    modifies x, y, z, merge
    ensures r == 0
    ensures Placed(x[..], old(x[..]), CpuOutputs(m, a, b, outSize, enhanced, minStep, 0), outSize, adjust)
    ensures Placed(y[..], old(y[..]), CpuOutputs(m, a, b, outSize, enhanced, minStep, 1), outSize, adjust)
    ensures Placed(z[..], old(z[..]), CpuOutputs(m, a, b, outSize, enhanced, minStep, 2), outSize, adjust)
    ensures merge != null ==> Placed(merge[..], old(merge[..]), CpuMerges(a, b, outSize, mr), outSize, adjust)
  {
    var i := 0;
    while i < outSize
      invariant 0 <= i <= outSize
      invariant Placed(x[..], old(x[..]), CpuOutputs(m, a, b, outSize, enhanced, minStep, 0), i, adjust)
      invariant Placed(y[..], old(y[..]), CpuOutputs(m, a, b, outSize, enhanced, minStep, 1), i, adjust)
      invariant Placed(z[..], old(z[..]), CpuOutputs(m, a, b, outSize, enhanced, minStep, 2), i, adjust)
      invariant merge != null ==> Placed(merge[..], old(merge[..]), CpuMerges(a, b, outSize, mr), i, adjust)
    {
      Step(enhanced, a, b, m, i, x, y, z, minStep, merge, mr, adjust, outSize,
           old(x[..]), old(y[..]), old(z[..]), if merge != null then old(merge[..]) else []);
      i := i + 1;
    }
    r := 0;
  }
}
