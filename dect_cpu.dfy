/** The CPU solver of the dect command-line tool (dect/cpu.cpp): no coarse
    scan; every run descends from (ab, ratio) = (0.66, 0.5) with step 0.25,
    keeping the four candidates of a round in small local arrays. The runs
    are averaged by dividing whenever enhanced is non-zero, the result is
    stored as bytes at the (possibly mirrored) output index, and the merged
    image goes through a uint16 conversion. */
module DectCpu {
  import opened Mixing
  import opened Search
  import opened Output

  // ---------------------------------------------------------------------
  // One round of the descent, on local arrays.
  // ---------------------------------------------------------------------

  /** new_ratio[0..3] and new_ab[0..3]: the four candidate positions, first
      stepped along +ab, +ratio, -ab, -ratio and then clamped into [0,1]
      (below 0, else above 1). */
  method Candidates(curAb: real, curRatio: real, curStep: real) returns (newAb: array<real>, newRatio: array<real>)
    ensures fresh(newAb) && fresh(newRatio) && newAb != newRatio
    ensures newAb.Length == 4 && newRatio.Length == 4
    ensures forall k :: 0 <= k < 4 ==> Point(newAb[k], newRatio[k]) == Neighbour(curAb, curRatio, curStep, k)
  {
    newRatio := new real[4] [curRatio, curRatio + curStep, curRatio, curRatio - curStep];
    newAb := new real[4] [curAb + curStep, curAb, curAb - curStep, curAb];
    ClampAll(newAb, newRatio);
    NeighbourClamps(curAb, curRatio, curStep);
  }

  /** The candidate ab values before the clamp, in array order. */
  function RawAb(ab: real, step: real): seq<real> {
    [ab + step, ab, ab - step, ab]
  }

  /** The candidate ratio values before the clamp, in array order. */
  function RawRatio(ratio: real, step: real): seq<real> {
    [ratio, ratio + step, ratio, ratio - step]
  }

  /** s after the clamp loop has visited the indices below i. */
  function ClampUpTo(s: seq<real>, i: int): (r: seq<real>)
    requires 0 <= i <= |s|
    ensures |r| == |s|
    ensures forall k :: 0 <= k < i ==> r[k] == Clamp01(s[k])
    ensures forall k :: i <= k < |s| ==> r[k] == s[k]
  {
    if i == 0 then s else ClampUpTo(s, i - 1)[i - 1 := Clamp01(s[i - 1])]
  }

  /** The clamped candidates, in array order, are the four neighbours. */
  lemma NeighbourClamps(ab: real, ratio: real, step: real)
    ensures forall k :: 0 <= k < 4 ==>
      Neighbour(ab, ratio, step, k) == Point(ClampUpTo(RawAb(ab, step), 4)[k], ClampUpTo(RawRatio(ratio, step), 4)[k])
  {
  }

  /** The `for (i = 0; i < 4; i++)` clamp loop over both arrays. */
  method ClampAll(newAb: array<real>, newRatio: array<real>)
    requires newAb.Length == 4 && newRatio.Length == 4 && newAb != newRatio
    modifies newAb, newRatio
    ensures newAb[..] == ClampUpTo(old(newAb[..]), 4) && newRatio[..] == ClampUpTo(old(newRatio[..]), 4)
  {
    ghost var rawAb, rawRatio := newAb[..], newRatio[..];
    var i := 0;
    while i < 4
      invariant 0 <= i <= 4
      invariant newAb[..] == ClampUpTo(rawAb, i) && newRatio[..] == ClampUpTo(rawRatio, i)
    {
      ClampAt(newRatio, i);
      ClampAt(newAb, i);
      i := i + 1;
    }
  }

  /** Clamps one entry in place: to 0 if below 0, else to 1 if above 1. */
  method ClampAt(v: array<real>, i: int)
    requires 0 <= i < v.Length
    modifies v
    ensures v[..] == old(v[..])[i := Clamp01(old(v[i]))]
  {
    if v[i] < 0.0 {
      v[i] := 0.0;
    } else if v[i] > 1.0 {
      v[i] := 1.0;
    }
  }

  /** new_a[i], new_b[i] and the error at candidate (ab, ratio), with
      c = 1 - a - b. */
  method CandidateError(m: Coeffs, dA: real, dB: real, ab: real, ratio: real)
    returns (newA: real, newB: real, totErr: real)
    ensures Split(ab, ratio) == Fractions(newA, newB, 1.0 - newA - newB)
    ensures totErr == Cost(m, dA, dB, ab, ratio)
  {
    newA := ab * ratio;
    newB := ab * (1.0 - ratio);
    var curC := 1.0 - newA - newB;
    ComplementForms(ab, ratio);
    assert Split(ab, ratio) == Fractions(newA, newB, curC);
    var estA := m.alphaA * newA + m.betaA * newB + m.gammaA * curC;
    var estB := m.alphaB * newA + m.betaB * newB + m.gammaB * curC;
    assert Pair(estA, estB) == Predict(m, Split(ab, ratio));
    totErr := Sq(estA - dA) + Sq(estB - dB);
  }

  /** The `for (i = 0; i < 4; i++)` loop that evaluates the candidates:
      min_idx is the first candidate of smallest error. */
  method PickMin(m: Coeffs, dA: real, dB: real, newAb: array<real>, newRatio: array<real>, ghost cs: seq<real>)
    returns (minIdx: int, minErr: real)
    requires newAb.Length == 4 && newRatio.Length == 4 && |cs| == 4
    requires forall k :: 0 <= k < 4 ==> cs[k] == Cost(m, dA, dB, newAb[k], newRatio[k])
    ensures minIdx == FirstMin(cs) && minErr == cs[minIdx]
  {
    var newA := new real[4];
    var newB := new real[4];
    minIdx, minErr := 0, 0.0;
    var i := 0;
    while i < 4
      invariant 0 <= i <= 4
      invariant i > 0 ==> 0 <= minIdx < i && minIdx == FirstMin(cs[..i]) && minErr == cs[minIdx]
    {
      var totErr;
      newA[i], newB[i], totErr := CandidateError(m, dA, dB, newAb[i], newRatio[i]);
      FirstMinStep(cs, i);
      if i == 0 || totErr < minErr {
        minIdx := i;
        minErr := totErr;
      }
      i := i + 1;
    }
    assert cs[..4] == cs;
  }

  /** The body of dect/cpu.cpp's `while (cur_step >= min_step)` loop: it
      computes the same round as the scalar descent. */
  method ArrayRound(m: Coeffs, dA: real, dB: real, curAb: real, curRatio: real, curStep: real, curError: real)
    returns (ab: real, ratio: real, step: real, err: real)
    ensures Probe(ab, ratio, step, err) == Round(CostOf(m, dA, dB), Probe(curAb, curRatio, curStep, curError))
  {
    var newAb, newRatio := Candidates(curAb, curRatio, curStep);
    ghost var cs := NeighbourCosts(CostOf(m, dA, dB), curAb, curRatio, curStep);
    assert forall k :: 0 <= k < 4 ==> cs[k] == Cost(m, dA, dB, newAb[k], newRatio[k]);
    var minIdx, minErr := PickMin(m, dA, dB, newAb, newRatio, cs);
    if minErr < curError {
      ratio, ab, step, err := newRatio[minIdx], newAb[minIdx], curStep, minErr;
    } else {
      ab, ratio, step, err := curAb, curRatio, curStep / 2.0, curError;
    }
  }

  // ---------------------------------------------------------------------
  // The descent and the runs.
  // ---------------------------------------------------------------------

  /** Every run starts at ab = 0.66, ratio = 0.5 with step 0.25 = 1/4: ab
      lives on the lattice 0.66 + k/4 (and on k/4 once clamped), ratio on
      k/4. */
  function DectLattice(): Lattice {
    Lattice(0.66, 0.0, 4, Coord(true, 0), Coord(false, 2))
  }

  function DectStart(): Probe {
    Probe(0.66, 0.5, 0.25, InitialError)
  }

  lemma DectStartOnLattice()
    ensures OnLattice(DectLattice(), DectStart())
  {
    MulIsProduct(4, 0.25);
    MulIsProduct(2, 0.25);
  }

  /** The `while (cur_step >= min_step)` loop of dect/cpu.cpp, started at p0
      on lattice g: it ends where the descent Refine ends. */
  method ArrayDescend(m: Coeffs, dA: real, dB: real, ab0: real, ratio0: real, step0: real, err0: real,
                      minStep: real, ghost g: Lattice)
    returns (curAb: real, curRatio: real)
    requires minStep > 0.0
    requires OnLattice(g, Probe(ab0, ratio0, step0, err0))
    ensures var r := Refine(CostOf(m, dA, dB), Probe(ab0, ratio0, step0, err0), minStep, g);
      curAb == r.ab && curRatio == r.ratio
  {
    ghost var cost := CostOf(m, dA, dB);
    ghost var goal := Refine(cost, Probe(ab0, ratio0, step0, err0), minStep, g);
    var curStep, curError := step0, err0;
    curAb, curRatio := ab0, ratio0;
    ghost var lat := g;
    while curStep >= minStep
      invariant OnLattice(lat, Probe(curAb, curRatio, curStep, curError))
      invariant Refine(cost, Probe(curAb, curRatio, curStep, curError), minStep, lat) == goal
      decreases (curStep / minStep).Floor, |Below(cost, lat, curStep, curError)|
    {
      ghost var p := Probe(curAb, curRatio, curStep, curError);
      RoundProgress(cost, p, minStep, lat);
      lat := RoundLattice(cost, lat, p);
      curAb, curRatio, curStep, curError := ArrayRound(m, dA, dB, curAb, curRatio, curStep, curError);
    }
  }

  /** Where the descent of run i ends, in the frame of the permuted
      coefficients. */
  ghost function DectProbe(m: Coeffs, dA: real, dB: real, minStep: real, i: int): Probe
    requires minStep > 0.0 && 0 <= i < 3
  {
    DectStartOnLattice();
    Refine(CostOf(Permute(m, i), dA, dB), DectStart(), minStep, DectLattice())
  }

  /** Run i mapped back to materials (1, 2, 3). */
  ghost function DectRun(m: Coeffs, dA: real, dB: real, minStep: real, i: int): Fractions
    requires minStep > 0.0 && 0 <= i < 3
  {
    var r := DectProbe(m, dA, dB, minStep, i);
    Reassemble(i, r.ab, r.ratio)
  }

  /** What one run delivers: fractions on the simplex that predict, under
      the original coefficients, what the final (ab, ratio) predicted in the
      permuted frame; an error no worse than 5000^2 that is the cost of the
      final point unless the descent never moved; and, when minStep <= 0.25
      so the descent ran, a local minimum at twice the final step. */
  lemma DectRunSound(m: Coeffs, dA: real, dB: real, minStep: real, i: int)
    requires minStep > 0.0 && 0 <= i < 3
    ensures var r := DectProbe(m, dA, dB, minStep, i);
      var cost := CostOf(Permute(m, i), dA, dB);
      var f := DectRun(m, dA, dB, minStep, i);
      && OnSimplex(f)
      && Predict(m, f) == Predict(Permute(m, i), Split(r.ab, r.ratio))
      && r.err <= InitialError
      && (r.err == InitialError || r.err == cost(r.ab, r.ratio))
      && (minStep <= 0.25 ==> LocalMin(cost, r))
  {
    var cost := CostOf(Permute(m, i), dA, dB);
    DectStartOnLattice();
    RefineSound(cost, DectStart(), minStep, DectLattice());
    if minStep <= 0.25 {
      RefineLocalMin(cost, DectStart(), minStep, DectLattice());
    }
    var r := DectProbe(m, dA, dB, minStep, i);
    ReassembleAgrees(m, i, r.ab, r.ratio);
  }

  ghost function DectRuns(m: Coeffs, dA: real, dB: real, minStep: real, k: int): (fs: seq<Fractions>)
    requires minStep > 0.0 && 0 <= k <= 3
    ensures |fs| == k
  {
    if k == 0 then [] else DectRuns(m, dA, dB, minStep, k - 1) + [DectRun(m, dA, dB, minStep, k - 1)]
  }

  lemma {:induction false} DectRunsAt(m: Coeffs, dA: real, dB: real, minStep: real, k: int, i: int)
    requires minStep > 0.0 && 0 <= i < k <= 3
    ensures DectRuns(m, dA, dB, minStep, k)[i] == DectRun(m, dA, dB, minStep, i)
    decreases k
  {
    if i < k - 1 {
      DectRunsAt(m, dA, dB, minStep, k - 1, i);
    }
  }

  /** `if (enhanced) tot_best_* /= enhanced`: divides whenever enhanced is
      non-zero. */
  function DectAverage(total: Fractions, enhanced: int): Fractions {
    if enhanced != 0 then Scale(total, enhanced as real) else total
  }

  /** Dividing also by 1 and by a negative count changes nothing on the totals
      that arise (a single run; no run at all), so dect/cpu.cpp averages
      exactly like the libdect solvers, which divide only when enhanced > 1. */
  lemma DectAverageAgrees(total: Fractions, enhanced: int)
    requires enhanced <= 0 ==> total == Zero()
    ensures DectAverage(total, enhanced) == Average(total, enhanced)
  {
  }

  /** The fraction triple dect/cpu.cpp computes for one voxel. */
  ghost function DectResult(m: Coeffs, dA: real, dB: real, enhanced: int, minStep: real): Fractions
    requires minStep > 0.0 && enhanced <= 3
  {
    DectAverage(Total(DectRuns(m, dA, dB, minStep, if enhanced < 0 then 0 else enhanced)), enhanced)
  }

  /** The averaged result is on the simplex whenever 1 <= enhanced <= 3, and
      all zero when enhanced <= 0. */
  lemma DectResultSound(m: Coeffs, dA: real, dB: real, enhanced: int, minStep: real)
    requires minStep > 0.0 && enhanced <= 3
    ensures 1 <= enhanced ==> OnSimplex(DectResult(m, dA, dB, enhanced, minStep))
    ensures enhanced <= 0 ==> DectResult(m, dA, dB, enhanced, minStep) == Zero()
  {
    if enhanced >= 1 {
      var runs := DectRuns(m, dA, dB, minStep, enhanced);
      DectRunsOnSimplex(m, dA, dB, minStep, enhanced);
      DectAverageOnSimplex(runs);
      assert DectResult(m, dA, dB, enhanced, minStep) == DectAverage(Total(runs), |runs|);
    }
  }

  /** Dividing the total of simplex triples by their number keeps it on the
      simplex. */
  lemma DectAverageOnSimplex(runs: seq<Fractions>)
    requires |runs| >= 1
    requires forall i :: 0 <= i < |runs| ==> OnSimplex(runs[i])
    ensures OnSimplex(DectAverage(Total(runs), |runs|))
  {
    AverageOnSimplex(runs);
  }

  /** Every one of the first k runs is on the simplex. */
  lemma DectRunsOnSimplex(m: Coeffs, dA: real, dB: real, minStep: real, k: int)
    requires minStep > 0.0 && 0 <= k <= 3
    ensures forall i :: 0 <= i < k ==> OnSimplex(DectRuns(m, dA, dB, minStep, k)[i])
  {
    forall i | 0 <= i < k
      ensures OnSimplex(DectRuns(m, dA, dB, minStep, k)[i])
    {
      DectRunsAt(m, dA, dB, minStep, k, i);
      DectRunSound(m, dA, dB, minStep, i);
    }
  }

  /** Run i: permute the coefficients and descend from the fixed start. */
  method RunOnce(m: Coeffs, dA: real, dB: real, minStep: real, i: int) returns (run: Fractions)
    requires minStep > 0.0 && 0 <= i < 3
    ensures run == DectRun(m, dA, dB, minStep, i)
  {
    var pm := Permute(m, i);
    DectStartOnLattice();
    var ab, ratio := ArrayDescend(pm, dA, dB, 0.66, 0.5, 0.25, InitialError, minStep, DectLattice());
    assert ab == DectProbe(m, dA, dB, minStep, i).ab && ratio == DectProbe(m, dA, dB, minStep, i).ratio;
    run := Reassemble(i, ab, ratio);
  }

  /** The outer `for (i = 0; i < enhanced; i++)` loop: the running totals. */
  method SumRuns(m: Coeffs, dA: real, dB: real, enhanced: int, minStep: real)
    returns (tot: Fractions)
    requires minStep > 0.0 && enhanced <= 3
    ensures tot == Total(DectRuns(m, dA, dB, minStep, if enhanced < 0 then 0 else enhanced))
  {
    ghost var runs := DectRuns(m, dA, dB, minStep, if enhanced < 0 then 0 else enhanced);
    tot := Zero();
    var i := 0;
    while i < enhanced
      invariant 0 <= i <= |runs|
      invariant tot == Total(runs[..i])
    {
      var run := RunOnce(m, dA, dB, minStep, i);
      DectRunsAt(m, dA, dB, minStep, |runs|, i);
      TotalStep(runs, i);
      tot := Add(tot, run);
      i := i + 1;
    }
    assert runs[..i] == runs;
  }

  /** One voxel's fractions: the summed runs, divided by enhanced when it is
      non-zero. */
  method Solve(m: Coeffs, dA: real, dB: real, enhanced: int, minStep: real) returns (f: Fractions)
    requires minStep > 0.0 && enhanced <= 3
    ensures f == DectResult(m, dA, dB, enhanced, minStep)
  {
    f := SumRuns(m, dA, dB, enhanced, minStep);
    if enhanced != 0 {
      f := Fractions(f.a / enhanced as real, f.b / enhanced as real, f.c / enhanced as real);
    }
  }

  // ---------------------------------------------------------------------
  // The batch.
  // ---------------------------------------------------------------------

  ghost function VoxelResult(m: Coeffs, a: seq<int>, b: seq<int>, k: int, enhanced: int, minStep: real): Fractions
    requires minStep > 0.0 && enhanced <= 3
    requires 0 <= k < |a| && k < |b|
  {
    DectResult(m, a[k] as real, b[k] as real, enhanced, minStep)
  }

  /** The bytes stored for voxels 0 .. n - 1 in output x (0), y (1) or z (2). */
  ghost function DectOutputs(m: Coeffs, a: seq<int>, b: seq<int>, n: nat, enhanced: int, minStep: real,
                             component: int): seq<int>
    requires minStep > 0.0 && enhanced <= 3
    requires n <= |a| && n <= |b|
  {
    seq(n, k requires 0 <= k < n => Byte(Component(VoxelResult(m, a, b, k, enhanced, minStep), component)))
  }

  /** Voxel k's merge, read from the inputs at k itself, must fit a uint16. */
  predicate MergeFits(a: seq<int>, b: seq<int>, n: int, mr: real)
    requires n <= |a| && n <= |b|
  {
    forall k :: 0 <= k < n ==> InUint16(Trunc(MergeValue(a[k], b[k], mr)))
  }

  function DectMerges(a: seq<int>, b: seq<int>, n: nat, mr: real): seq<int>
    requires n <= |a| && n <= |b| && MergeFits(a, b, n, mr)
  {
    seq(n, k requires 0 <= k < n => Wrap16(Trunc(MergeValue(a[k], b[k], mr))))
  }

  /** Every stored byte is in [0, 255]; with no run every byte is zero. */
  lemma DectVoxelSound(m: Coeffs, a: seq<int>, b: seq<int>, k: int, enhanced: int, minStep: real)
    requires minStep > 0.0 && enhanced <= 3
    requires 0 <= k < |a| && k < |b|
    ensures var f := VoxelResult(m, a, b, k, enhanced, minStep);
      forall c :: 0 <= c < 3 ==> 0 <= Byte(Component(f, c)) <= 255 && (enhanced <= 0 ==> Byte(Component(f, c)) == 0)
  {
    DectResultSound(m, a[k] as real, b[k] as real, enhanced, minStep);
    var f := VoxelResult(m, a, b, k, enhanced, minStep);
    if 1 <= enhanced {
      ByteInRange(f.a);
      ByteInRange(f.b);
      ByteInRange(f.c);
    }
  }

  /** dect_algo_cpu of dect/cpu.cpp: solves voxel idx and stores its bytes,
      and optionally its merged value, at the voxel's output index. */
  method Voxel(enhanced: int, a: seq<int>, b: seq<int>, m: Coeffs, idx: int,
               x: array<int>, y: array<int>, z: array<int>, minStep: real,
               merge: array?<int>, mr: real, adjust: int)
    requires minStep > 0.0 && enhanced <= 3
    requires 0 <= idx < |a| && idx < |b|
    requires x != y && y != z && x != z && merge != x && merge != y && merge != z
    requires 0 <= Slot(idx, adjust) < x.Length && Slot(idx, adjust) < y.Length && Slot(idx, adjust) < z.Length
    requires merge != null ==> Slot(idx, adjust) < merge.Length && InUint16(Trunc(MergeValue(a[idx], b[idx], mr)))
    modifies x, y, z, merge
    ensures var s, f := Slot(idx, adjust), VoxelResult(m, a, b, idx, enhanced, minStep);
      x[..] == old(x[..])[s := Byte(f.a)] &&
      y[..] == old(y[..])[s := Byte(f.b)] &&
      z[..] == old(z[..])[s := Byte(f.c)]
    ensures merge != null ==>
      merge[..] == old(merge[..])[Slot(idx, adjust) := Wrap16(Trunc(MergeValue(a[idx], b[idx], mr)))]
  {
    var f := Solve(m, a[idx] as real, b[idx] as real, enhanced, minStep);
    var s := Slot(idx, adjust);
    x[s] := Byte(f.a);
    y[s] := Byte(f.b);
    z[s] := Byte(f.c);
    if merge != null {
      merge[s] := Wrap16(Trunc(MergeValue(a[idx], b[idx], mr)));
    }
  }

  /** Voxel i of the batch: extends what voxels 0 .. i - 1 stored (over the
      batch's initial contents x0, y0, z0 and m0) by voxel i. */
  method Step(enhanced: int, a: seq<int>, b: seq<int>, m: Coeffs, i: int,
              x: array<int>, y: array<int>, z: array<int>, minStep: real,
              merge: array?<int>, mr: real, adjust: int, n: int,
              ghost x0: seq<int>, ghost y0: seq<int>, ghost z0: seq<int>, ghost m0: seq<int>)
    requires minStep > 0.0 && enhanced <= 3
    requires 0 <= i < n <= |a| && n <= |b|
    requires x != y && y != z && x != z && merge != x && merge != y && merge != z
    requires |x0| == x.Length && |y0| == y.Length && |z0| == z.Length
    requires SlotsFit(n, adjust, x.Length) && SlotsFit(n, adjust, y.Length) && SlotsFit(n, adjust, z.Length)
    requires merge != null ==> |m0| == merge.Length && SlotsFit(n, adjust, merge.Length) && MergeFits(a, b, n, mr)
    requires Placed(x[..], x0, DectOutputs(m, a, b, n, enhanced, minStep, 0), i, adjust)
    requires Placed(y[..], y0, DectOutputs(m, a, b, n, enhanced, minStep, 1), i, adjust)
    requires Placed(z[..], z0, DectOutputs(m, a, b, n, enhanced, minStep, 2), i, adjust)
    requires merge != null ==> Placed(merge[..], m0, DectMerges(a, b, n, mr), i, adjust)
    modifies x, y, z, merge
    ensures Placed(x[..], x0, DectOutputs(m, a, b, n, enhanced, minStep, 0), i + 1, adjust)
    ensures Placed(y[..], y0, DectOutputs(m, a, b, n, enhanced, minStep, 1), i + 1, adjust)
    ensures Placed(z[..], z0, DectOutputs(m, a, b, n, enhanced, minStep, 2), i + 1, adjust)
    ensures merge != null ==> Placed(merge[..], m0, DectMerges(a, b, n, mr), i + 1, adjust)
  {
    ghost var x1, y1, z1 := x[..], y[..], z[..];
    ghost var m1 := if merge != null then merge[..] else [];
    Voxel(enhanced, a, b, m, i, x, y, z, minStep, merge, mr, adjust);
    PlacedStep(x[..], x1, x0, DectOutputs(m, a, b, n, enhanced, minStep, 0), i, adjust);
    PlacedStep(y[..], y1, y0, DectOutputs(m, a, b, n, enhanced, minStep, 1), i, adjust);
    PlacedStep(z[..], z1, z0, DectOutputs(m, a, b, n, enhanced, minStep, 2), i, adjust);
    if merge != null {
      PlacedStep(merge[..], m1, m0, DectMerges(a, b, n, mr), i, adjust);
    }
  }

  /** dect_algo_cpu_iter of dect/cpu.cpp (enhanced is the tool's global
      setting): solves voxels 0 .. outSize - 1 in order and returns 0. */
  method Iter(enhanced: int, a: seq<int>, b: seq<int>, m: Coeffs,
              x: array<int>, y: array<int>, z: array<int>, outSize: nat, minStep: real,
              merge: array?<int>, mr: real, adjust: int) returns (r: int)
    requires minStep > 0.0 && enhanced <= 3
    requires outSize <= |a| && outSize <= |b|
    requires x != y && y != z && x != z && merge != x && merge != y && merge != z
    requires SlotsFit(outSize, adjust, x.Length) && SlotsFit(outSize, adjust, y.Length) && SlotsFit(outSize, adjust, z.Length)
    requires merge != null ==> SlotsFit(outSize, adjust, merge.Length) && MergeFits(a, b, outSize, mr)
    modifies x, y, z, merge
    ensures r == 0
    ensures Placed(x[..], old(x[..]), DectOutputs(m, a, b, outSize, enhanced, minStep, 0), outSize, adjust)
    ensures Placed(y[..], old(y[..]), DectOutputs(m, a, b, outSize, enhanced, minStep, 1), outSize, adjust)
    ensures Placed(z[..], old(z[..]), DectOutputs(m, a, b, outSize, enhanced, minStep, 2), outSize, adjust)
    ensures merge != null ==> Placed(merge[..], old(merge[..]), DectMerges(a, b, outSize, mr), outSize, adjust)
  {
    var i := 0;
    while i < outSize
      invariant 0 <= i <= outSize
      invariant Placed(x[..], old(x[..]), DectOutputs(m, a, b, outSize, enhanced, minStep, 0), i, adjust)
      invariant Placed(y[..], old(y[..]), DectOutputs(m, a, b, outSize, enhanced, minStep, 1), i, adjust)
      invariant Placed(z[..], old(z[..]), DectOutputs(m, a, b, outSize, enhanced, minStep, 2), i, adjust)
      invariant merge != null ==> Placed(merge[..], old(merge[..]), DectMerges(a, b, outSize, mr), i, adjust)
    {
      Step(enhanced, a, b, m, i, x, y, z, minStep, merge, mr, adjust, outSize,
           old(x[..]), old(y[..]), old(z[..]), if merge != null then old(merge[..]) else []);
      i := i + 1;
    }
    r := 0;
  }
}
