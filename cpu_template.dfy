/** The generic CPU solver of libdect (one instantiation per precision and
    output type): each voxel's measured pair is first clamped to the range the
    coefficients can produce, then solved by the coarse scan and descent of
    module Search, averaged over the enhanced runs, quantised to the output
    type and written at its (possibly mirrored) output index. */
module CpuTemplate {
  import opened Mixing
  import opened Search
  import opened Output

  function Min3(x: real, y: real, z: real): (r: real)
    ensures r <= x && r <= y && r <= z
    ensures r == x || r == y || r == z
  {
    if x <= y && x <= z then x else if y <= z then y else z
  }

  function Max3(x: real, y: real, z: real): (r: real)
    ensures r >= x && r >= y && r >= z
    ensures r == x || r == y || r == z
  {
    if x >= y && x >= z then x else if y >= z then y else z
  }

  /** std::clamp: the value limited to [lo, hi]. */
  function ClampTo(v: real, lo: real, hi: real): (r: real)
    requires lo <= hi
    ensures lo <= r <= hi
    ensures lo <= v <= hi ==> r == v
    ensures v < lo ==> r == lo
    ensures hi < v ==> r == hi
  {
    if v < lo then lo else if hi < v then hi else v
  }

  /** The measured pair clamped, channel by channel, to the smallest and largest
      coefficient of that channel. */
  function PreClamp(m: Coeffs, dA: real, dB: real): Pair {
    Pair(ClampTo(dA, Min3(m.alphaA, m.betaA, m.gammaA), Max3(m.alphaA, m.betaA, m.gammaA)),
         ClampTo(dB, Min3(m.alphaB, m.betaB, m.gammaB), Max3(m.alphaB, m.betaB, m.gammaB)))
  }

  /** A weighted mean of three values lies between their minimum and maximum. */
  lemma MeanBetween(x: real, y: real, z: real, f: Fractions)
    requires OnSimplex(f)
    ensures Min3(x, y, z) <= x * f.a + y * f.b + z * f.c <= Max3(x, y, z)
  {
    var lo, hi := Min3(x, y, z), Max3(x, y, z);
    NonNegProduct(x - lo, f.a);
    NonNegProduct(y - lo, f.b);
    NonNegProduct(z - lo, f.c);
    NonNegProduct(hi - x, f.a);
    NonNegProduct(hi - y, f.b);
    NonNegProduct(hi - z, f.c);
    assert lo * f.a + lo * f.b + lo * f.c == lo * (f.a + f.b + f.c);
    assert hi * f.a + hi * f.b + hi * f.c == hi * (f.a + f.b + f.c);
  }

  lemma NonNegProduct(p: real, q: real)
    requires p >= 0.0 && q >= 0.0
    ensures p * q >= 0.0
  {
  }

  /** The clamp never moves a measurement that some mixture explains: every
      prediction from fractions on the simplex is left unchanged by it. */
  lemma {:induction false} PreClampKeepsAttainable(m: Coeffs, f: Fractions)
    requires OnSimplex(f)
    ensures var p := Predict(m, f); PreClamp(m, p.inA, p.inB) == p
  {
    MeanBetween(m.alphaA, m.betaA, m.gammaA, f);
    MeanBetween(m.alphaB, m.betaB, m.gammaB, f);
  }

  /** The averaged fractions the template finds for voxel k. */
  ghost function TemplateResult(m: Coeffs, a: seq<int>, b: seq<int>, k: int, enhanced: int, minStep: real): Fractions
    requires minStep > 0.0 && enhanced <= 3
    requires 0 <= k < |a| && k < |b|
  {
    var d := PreClamp(m, a[k] as real, b[k] as real);
    SearchResult(m, d.inA, d.inB, enhanced, minStep)
  }

  /** The merged value of each voxel i < n is read from the inputs at the
      voxel's output index, and its conversion to int16 must not overflow. */
  predicate MergeFits(a: seq<int>, b: seq<int>, n: int, adjust: int, mr: real) {
    SlotsFit(n, adjust, |a|) && SlotsFit(n, adjust, |b|) &&
    forall i :: 0 <= i < n ==> InInt16(Trunc(MergeValue(a[Slot(i, adjust)], b[Slot(i, adjust)], mr)))
  }

  /** Solves voxel idx and writes its quantised fractions, and optionally the
      merged value, at the voxel's output index. */
  method Voxel(enhanced: int, a: seq<int>, b: seq<int>, m: Coeffs, idx: int,
               x: array<real>, y: array<real>, z: array<real>, minStep: real,
               merge: array?<int>, mr: real, adjust: int, otype: OutputType)
    requires minStep > 0.0 && enhanced <= 3
    requires 0 <= idx < |a| && idx < |b|
    requires x != y && y != z && x != z
    requires 0 <= Slot(idx, adjust) < x.Length && Slot(idx, adjust) < y.Length && Slot(idx, adjust) < z.Length
    requires merge != null ==> var s := Slot(idx, adjust);
      s < merge.Length && s < |a| && s < |b| && InInt16(Trunc(MergeValue(a[s], b[s], mr)))
    modifies x, y, z, merge
    ensures var s, f := Slot(idx, adjust), TemplateResult(m, a, b, idx, enhanced, minStep);
      x[..] == old(x[..])[s := Quantize(f.a, otype)] &&
      y[..] == old(y[..])[s := Quantize(f.b, otype)] &&
      z[..] == old(z[..])[s := Quantize(f.c, otype)]
    ensures merge != null ==> var s := Slot(idx, adjust);
      merge[..] == old(merge[..])[s := Trunc(MergeValue(a[s], b[s], mr))]
  {
    var d := PreClamp(m, a[idx] as real, b[idx] as real);
    var f := SearchVoxel(m, d.inA, d.inB, enhanced, minStep);
    var s := Slot(idx, adjust);
    x[s] := Quantize(f.a, otype);
    y[s] := Quantize(f.b, otype);
    z[s] := Quantize(f.c, otype);
    if merge != null {
      merge[s] := Trunc(MergeValue(a[s], b[s], mr));
    }
  }

  /** What the template stores for one voxel: with at least one run each
      value lies in [0, OutputMax] and the floating outputs sum to one; with no
      run all three are zero. */
  lemma TemplateVoxelSound(m: Coeffs, a: seq<int>, b: seq<int>, k: int, enhanced: int, minStep: real, otype: OutputType)
    requires minStep > 0.0 && enhanced <= 3
    requires 0 <= k < |a| && k < |b|
    ensures var f := TemplateResult(m, a, b, k, enhanced, minStep);
      1 <= enhanced ==>
        (forall c :: 0 <= c < 3 ==> 0.0 <= Quantize(Component(f, c), otype) <= OutputMax(otype)) &&
        (!IsInteger(otype) ==> Quantize(f.a, otype) + Quantize(f.b, otype) + Quantize(f.c, otype) == 1.0)
    ensures var f := TemplateResult(m, a, b, k, enhanced, minStep);
      enhanced <= 0 ==> forall c :: 0 <= c < 3 ==> Quantize(Component(f, c), otype) == 0.0
  {
    var d := PreClamp(m, a[k] as real, b[k] as real);
    SearchResultSound(m, d.inA, d.inB, enhanced, minStep);
    var f := TemplateResult(m, a, b, k, enhanced, minStep);
    if 1 <= enhanced {
      QuantizeInRange(f.a, otype);
      QuantizeInRange(f.b, otype);
      QuantizeInRange(f.c, otype);
    }
  }

  /** The values the template stores for voxels 0 .. n - 1 in output x
      (component 0), y (1) or z (2). */
  ghost function TemplateOutputs(m: Coeffs, a: seq<int>, b: seq<int>, n: nat, enhanced: int, minStep: real,
                                 otype: OutputType, component: int): seq<real>
    requires minStep > 0.0 && enhanced <= 3
    requires n <= |a| && n <= |b|
  {
    seq(n, k requires 0 <= k < n => Quantize(Component(TemplateResult(m, a, b, k, enhanced, minStep), component), otype))
  }

  /** The merged values stored for voxels 0 .. n - 1. */
  function TemplateMerges(a: seq<int>, b: seq<int>, n: nat, adjust: int, mr: real): seq<int>
    requires SlotsFit(n, adjust, |a|) && SlotsFit(n, adjust, |b|)
  {
    seq(n, k requires 0 <= k < n => Trunc(MergeValue(a[Slot(k, adjust)], b[Slot(k, adjust)], mr)))
  }

  /** Voxel i of the batch: extends what voxels 0 .. i - 1 wrote (from the
      batch's initial contents x0, y0, z0 and m0) by voxel i. */
  method Step(enhanced: int, a: seq<int>, b: seq<int>, m: Coeffs, i: int,
              x: array<real>, y: array<real>, z: array<real>, minStep: real,
              merge: array?<int>, mr: real, adjust: int, otype: OutputType, n: int,
              ghost x0: seq<real>, ghost y0: seq<real>, ghost z0: seq<real>, ghost m0: seq<int>)
    requires minStep > 0.0 && enhanced <= 3
    requires 0 <= i < n <= |a| && n <= |b|
    requires x != y && y != z && x != z
    requires |x0| == x.Length && |y0| == y.Length && |z0| == z.Length
    requires SlotsFit(n, adjust, x.Length) && SlotsFit(n, adjust, y.Length) && SlotsFit(n, adjust, z.Length)
    requires merge != null ==> |m0| == merge.Length && SlotsFit(n, adjust, merge.Length) && MergeFits(a, b, n, adjust, mr)
    requires Placed(x[..], x0, TemplateOutputs(m, a, b, n, enhanced, minStep, otype, 0), i, adjust)
    requires Placed(y[..], y0, TemplateOutputs(m, a, b, n, enhanced, minStep, otype, 1), i, adjust)
    requires Placed(z[..], z0, TemplateOutputs(m, a, b, n, enhanced, minStep, otype, 2), i, adjust)
    requires merge != null ==> Placed(merge[..], m0, TemplateMerges(a, b, n, adjust, mr), i, adjust)
    modifies x, y, z, merge
    ensures Placed(x[..], x0, TemplateOutputs(m, a, b, n, enhanced, minStep, otype, 0), i + 1, adjust)
    ensures Placed(y[..], y0, TemplateOutputs(m, a, b, n, enhanced, minStep, otype, 1), i + 1, adjust)
    ensures Placed(z[..], z0, TemplateOutputs(m, a, b, n, enhanced, minStep, otype, 2), i + 1, adjust)
    ensures merge != null ==> Placed(merge[..], m0, TemplateMerges(a, b, n, adjust, mr), i + 1, adjust)
  {
    ghost var x1, y1, z1 := x[..], y[..], z[..];
    ghost var m1 := if merge != null then merge[..] else [];
    Voxel(enhanced, a, b, m, i, x, y, z, minStep, merge, mr, adjust, otype);
    PlacedStep(x[..], x1, x0, TemplateOutputs(m, a, b, n, enhanced, minStep, otype, 0), i, adjust);
    PlacedStep(y[..], y1, y0, TemplateOutputs(m, a, b, n, enhanced, minStep, otype, 1), i, adjust);
    PlacedStep(z[..], z1, z0, TemplateOutputs(m, a, b, n, enhanced, minStep, otype, 2), i, adjust);
    if merge != null {
      PlacedStep(merge[..], m1, m0, TemplateMerges(a, b, n, adjust, mr), i, adjust);
    }
  }

  /** dect_algo_cpu_iter: solves voxels 0 .. pixCount - 1 in order and
      returns 0. */
  method Iter(enhanced: int, a: seq<int>, b: seq<int>, m: Coeffs,
              x: array<real>, y: array<real>, z: array<real>, pixCount: nat, minStep: real,
              merge: array?<int>, mr: real, adjust: int, otype: OutputType) returns (r: int)
    requires minStep > 0.0 && enhanced <= 3
    requires pixCount <= |a| && pixCount <= |b|
    requires x != y && y != z && x != z
    requires SlotsFit(pixCount, adjust, x.Length) && SlotsFit(pixCount, adjust, y.Length) && SlotsFit(pixCount, adjust, z.Length)
    requires merge != null ==>
      SlotsFit(pixCount, adjust, merge.Length) && MergeFits(a, b, pixCount, adjust, mr)
    modifies x, y, z, merge
    ensures r == 0
    ensures Placed(x[..], old(x[..]), TemplateOutputs(m, a, b, pixCount, enhanced, minStep, otype, 0), pixCount, adjust)
    ensures Placed(y[..], old(y[..]), TemplateOutputs(m, a, b, pixCount, enhanced, minStep, otype, 1), pixCount, adjust)
    ensures Placed(z[..], old(z[..]), TemplateOutputs(m, a, b, pixCount, enhanced, minStep, otype, 2), pixCount, adjust)
    ensures merge != null ==> Placed(merge[..], old(merge[..]), TemplateMerges(a, b, pixCount, adjust, mr), pixCount, adjust)
  {
    var i := 0;
    while i < pixCount
      invariant 0 <= i <= pixCount
      invariant Placed(x[..], old(x[..]), TemplateOutputs(m, a, b, pixCount, enhanced, minStep, otype, 0), i, adjust)
      invariant Placed(y[..], old(y[..]), TemplateOutputs(m, a, b, pixCount, enhanced, minStep, otype, 1), i, adjust)
      invariant Placed(z[..], old(z[..]), TemplateOutputs(m, a, b, pixCount, enhanced, minStep, otype, 2), i, adjust)
      invariant merge != null ==> Placed(merge[..], old(merge[..]), TemplateMerges(a, b, pixCount, adjust, mr), i, adjust)
    {
      Step(enhanced, a, b, m, i, x, y, z, minStep, merge, mr, adjust, otype, pixCount,
           old(x[..]), old(y[..]), old(z[..]), if merge != null then old(merge[..]) else []);
      i := i + 1;
    }
    r := 0;
  }
}
