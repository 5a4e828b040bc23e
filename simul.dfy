/** The "simultaneous equations" device of libdect (libdect/simul.cpp): each
    voxel's fractions are solved in closed form from the two mixing equations
    and c = 1 - a - b, then truncated to bytes and clamped to [0, 255]. No
    search is run; enhanced and min_step are accepted and ignored. */
module Simul {
  import opened Mixing
  import opened Output

  /** The differences the closed form is written in: alpha, beta against
      material 3 in image A, gamma, delta in image B. */
  function Alpha(m: Coeffs): real { m.alphaA - m.gammaA }
  function Beta(m: Coeffs): real { m.betaA - m.gammaA }
  function Gamma(m: Coeffs): real { m.alphaB - m.gammaB }
  function Delta(m: Coeffs): real { m.betaB - m.gammaB }

  function Epsilon(m: Coeffs): real
    requires Beta(m) != 0.0
  {
    Delta(m) / Beta(m)
  }

  /** The closed form divides by beta and by gamma - alpha * epsilon. */
  predicate Solvable(m: Coeffs) {
    Beta(m) != 0.0 && Gamma(m) - Alpha(m) * Epsilon(m) != 0.0
  }

  /** curx, cury, curz: the fractions whose prediction is exactly the
      measured pair (theta, phi) and that sum to one. */
  function SolveVoxel(m: Coeffs, theta: real, phi: real): (f: Fractions)
    requires Solvable(m)
    ensures f.a + f.b + f.c == 1.0
    ensures Predict(m, f) == Pair(theta, phi)
  {
    var curx := SolveX(m, theta, phi);
    var cury := SolveY(m, theta, curx);
    SolveExact(m, theta, phi, curx, cury);
    Fractions(curx, cury, 1.0 - curx - cury)
  }

  /** curx: (phi - gammaB - epsilon * (theta - gammaA)) / (gamma - alpha * epsilon). */
  function SolveX(m: Coeffs, theta: real, phi: real): real
    requires Solvable(m)
  {
    (phi - m.gammaB - Epsilon(m) * (theta - m.gammaA)) / (Gamma(m) - Alpha(m) * Epsilon(m))
  }

  /** cury: (theta - gammaA - curx * alpha) / beta. */
  function SolveY(m: Coeffs, theta: real, curx: real): real
    requires Solvable(m)
  {
    (theta - m.gammaA - curx * Alpha(m)) / Beta(m)
  }

  lemma SolveExact(m: Coeffs, theta: real, phi: real, curx: real, cury: real)
    requires Solvable(m)
    requires curx == SolveX(m, theta, phi)
    requires cury == SolveY(m, theta, curx)
    ensures Predict(m, Fractions(curx, cury, 1.0 - curx - cury)) == Pair(theta, phi)
  {
    var eps := Epsilon(m);
    var f := Fractions(curx, cury, 1.0 - curx - cury);
    assert Delta(m) == Beta(m) * eps;
    assert cury * Beta(m) == theta - m.gammaA - curx * Alpha(m);
    assert curx * (Gamma(m) - Alpha(m) * eps) == phi - m.gammaB - eps * (theta - m.gammaA);
    assert Predict(m, f).inA == m.gammaA + curx * Alpha(m) + cury * Beta(m);
    assert Predict(m, f).inB == m.gammaB + curx * Gamma(m) + cury * Delta(m);
    assert cury * Delta(m) == (cury * Beta(m)) * eps;
  }

  /** Two fraction triples that sum to one and predict the same pair are
      equal when the closed form is defined: the closed form is the only
      solution. */
  lemma SolveUnique(m: Coeffs, f: Fractions, theta: real, phi: real)
    requires Solvable(m)
    requires f.a + f.b + f.c == 1.0 && Predict(m, f) == Pair(theta, phi)
    ensures f == SolveVoxel(m, theta, phi)
  {
    var g := SolveVoxel(m, theta, phi);
    // Both triples satisfy the reduced equations a*alpha + b*beta = theta - gammaA
    // and a*gamma + b*delta = phi - gammaB; subtracting gives a homogeneous system.
    Reduced(m, f);
    Reduced(m, g);
    HomogeneousZero(Alpha(m), Beta(m), Gamma(m), Delta(m), Epsilon(m), f.a - g.a, f.b - g.b);
  }

  /** With c = 1 - a - b the predictions are gammaA and gammaB plus the
      differences weighted by a and b. */
  lemma Reduced(m: Coeffs, f: Fractions)
    requires f.a + f.b + f.c == 1.0
    ensures Predict(m, f).inA == m.gammaA + f.a * Alpha(m) + f.b * Beta(m)
    ensures Predict(m, f).inB == m.gammaB + f.a * Gamma(m) + f.b * Delta(m)
  {
  }

  /** The homogeneous system da*alpha + db*beta = 0, da*gamma + db*delta = 0
      has only the zero solution when beta and gamma - alpha*epsilon are
      non-zero, with delta = epsilon*beta. */
  lemma HomogeneousZero(alpha: real, beta: real, gamma: real, delta: real, eps: real, da: real, db: real)
    requires beta != 0.0 && eps == delta / beta && gamma - alpha * eps != 0.0
    requires da * alpha + db * beta == 0.0
    requires da * gamma + db * delta == 0.0
    ensures da == 0.0 && db == 0.0
  {
    assert delta == beta * eps;
    assert db * delta == (db * beta) * eps;
    assert da * (gamma - alpha * eps) == 0.0;
  }

  /** A measurement that is exactly material 1 (image values alphaA, alphaB)
      solves to the pure triple (1, 0, 0), stored as bytes (255, 0, 0). */
  lemma PureMaterialOne(m: Coeffs)
    requires Solvable(m)
    ensures SolveVoxel(m, m.alphaA, m.alphaB) == Fractions(1.0, 0.0, 0.0)
    ensures ByteClamp(1.0) == 255 && ByteClamp(0.0) == 0
  {
    SolveUnique(m, Fractions(1.0, 0.0, 0.0), m.alphaA, m.alphaB);
  }

  /** `(int)(v * 255.0f)` (truncation toward zero) clamped to [0, 255]. */
  function ByteClamp(v: real): (q: int)
    ensures 0 <= q <= 255
    ensures v * 255.0 >= 255.0 ==> q == 255
    ensures v <= 0.0 ==> q == 0
  {
    var t := Trunc(v * 255.0);
    if t < 0 then 0 else if t > 255 then 255 else t
  }

  /** On fractions in [0,1] the truncate-and-clamp agrees with the floor
      quantisation of the search solvers. */
  lemma ByteClampInUnit(v: real)
    requires InUnit(v)
    ensures ByteClamp(v) == Byte(v)
  {
  }

  /** The bytes stored for voxels 0 .. n - 1 in output x (0), y (1) or z (2),
      as numeric element values. */
  function SimulOutputs(m: Coeffs, a: seq<int>, b: seq<int>, n: nat, component: int): seq<real>
    requires Solvable(m) && n <= |a| && n <= |b|
  {
    seq(n, k requires 0 <= k < n => ByteClamp(Component(SolveVoxel(m, a[k] as real, b[k] as real), component)) as real)
  }

  /** Voxel k's merge, from the inputs at k, must fit an int16. */
  predicate MergeFits(a: seq<int>, b: seq<int>, n: int, mr: real)
    requires n <= |a| && n <= |b|
  {
    forall k :: 0 <= k < n ==> InInt16(Trunc(MergeValue(a[k], b[k], mr)))
  }

  function SimulMerges(a: seq<int>, b: seq<int>, n: nat, mr: real): seq<int>
    requires n <= |a| && n <= |b|
  {
    seq(n, k requires 0 <= k < n => Trunc(MergeValue(a[k], b[k], mr)))
  }

  /** The closed form as the loop body computes it. */
  method ClosedForm(m: Coeffs, theta: real, phi: real) returns (curx: real, cury: real, curz: real)
    requires Solvable(m)
    ensures Fractions(curx, cury, curz) == SolveVoxel(m, theta, phi)
  {
    var eps := Epsilon(m);
    curx := (phi - m.gammaB - eps * (theta - m.gammaA)) / (Gamma(m) - Alpha(m) * eps);
    assert curx == SolveX(m, theta, phi);
    cury := (theta - m.gammaA - curx * Alpha(m)) / Beta(m);
    assert cury == SolveY(m, theta, curx);
    curz := 1.0 - curx - cury;
  }

  /** The three truncations to int, then the clamps below 0 and above 255. */
  method ClampBytes(curx: real, cury: real, curz: real) returns (xo: int, yo: int, zo: int)
    ensures xo == ByteClamp(curx) && yo == ByteClamp(cury) && zo == ByteClamp(curz)
  {
    xo, yo, zo := Trunc(curx * 255.0), Trunc(cury * 255.0), Trunc(curz * 255.0);
    if xo < 0 { xo := 0; }
    if yo < 0 { yo := 0; }
    if zo < 0 { zo := 0; }
    if xo > 255 { xo := 255; }
    if yo > 255 { yo := 255; }
    if zo > 255 { zo := 255; }
  }

  /** The body of the loop for one voxel idx. */
  method SimulVoxel(a: seq<int>, b: seq<int>, m: Coeffs, idx: int,
                    x: array<real>, y: array<real>, z: array<real>,
                    merge: array?<int>, mr: real, adjust: int)
    requires Solvable(m)
    requires 0 <= idx < |a| && idx < |b|
    requires x != y && y != z && x != z
    requires 0 <= Slot(idx, adjust) < x.Length && Slot(idx, adjust) < y.Length && Slot(idx, adjust) < z.Length
    requires merge != null ==> Slot(idx, adjust) < merge.Length && InInt16(Trunc(MergeValue(a[idx], b[idx], mr)))
    modifies x, y, z, merge
    ensures var s, f := Slot(idx, adjust), SolveVoxel(m, a[idx] as real, b[idx] as real);
      x[..] == old(x[..])[s := ByteClamp(f.a) as real] &&
      y[..] == old(y[..])[s := ByteClamp(f.b) as real] &&
      z[..] == old(z[..])[s := ByteClamp(f.c) as real]
    ensures merge != null ==> merge[..] == old(merge[..])[Slot(idx, adjust) := Trunc(MergeValue(a[idx], b[idx], mr))]
  {
    var curx, cury, curz := ClosedForm(m, a[idx] as real, b[idx] as real);
    var outIdx := Slot(idx, adjust);
    var xo, yo, zo := ClampBytes(curx, cury, curz);
    x[outIdx] := xo as real;
    y[outIdx] := yo as real;
    z[outIdx] := zo as real;
    if merge != null {
      merge[outIdx] := Trunc(MergeValue(a[idx], b[idx], mr));
    }
  }

  method Step(a: seq<int>, b: seq<int>, m: Coeffs, i: int,
              x: array<real>, y: array<real>, z: array<real>,
              merge: array?<int>, mr: real, adjust: int, n: int,
              ghost x0: seq<real>, ghost y0: seq<real>, ghost z0: seq<real>, ghost m0: seq<int>)
    requires Solvable(m)
    requires 0 <= i < n <= |a| && n <= |b|
    requires x != y && y != z && x != z
    requires |x0| == x.Length && |y0| == y.Length && |z0| == z.Length
    requires SlotsFit(n, adjust, x.Length) && SlotsFit(n, adjust, y.Length) && SlotsFit(n, adjust, z.Length)
    requires merge != null ==> |m0| == merge.Length && SlotsFit(n, adjust, merge.Length) && MergeFits(a, b, n, mr)
    requires Placed(x[..], x0, SimulOutputs(m, a, b, n, 0), i, adjust)
    requires Placed(y[..], y0, SimulOutputs(m, a, b, n, 1), i, adjust)
    requires Placed(z[..], z0, SimulOutputs(m, a, b, n, 2), i, adjust)
    requires merge != null ==> Placed(merge[..], m0, SimulMerges(a, b, n, mr), i, adjust)
    modifies x, y, z, merge
    ensures Placed(x[..], x0, SimulOutputs(m, a, b, n, 0), i + 1, adjust)
    ensures Placed(y[..], y0, SimulOutputs(m, a, b, n, 1), i + 1, adjust)
    ensures Placed(z[..], z0, SimulOutputs(m, a, b, n, 2), i + 1, adjust)
    ensures merge != null ==> Placed(merge[..], m0, SimulMerges(a, b, n, mr), i + 1, adjust)
  {
    ghost var x1, y1, z1 := x[..], y[..], z[..];
    ghost var m1 := if merge != null then merge[..] else [];
    SimulVoxel(a, b, m, i, x, y, z, merge, mr, adjust);
    PlacedStep(x[..], x1, x0, SimulOutputs(m, a, b, n, 0), i, adjust);
    PlacedStep(y[..], y1, y0, SimulOutputs(m, a, b, n, 1), i, adjust);
    PlacedStep(z[..], z1, z0, SimulOutputs(m, a, b, n, 2), i, adjust);
    if merge != null {
      PlacedStep(merge[..], m1, m0, SimulMerges(a, b, n, mr), i, adjust);
    }
  }

  /** dect_algo_simul: solves voxels 0 .. outSize - 1 in closed form and
      returns 0; enhanced and minStep play no part. */
  method Run(enhanced: int, a: seq<int>, b: seq<int>, m: Coeffs,
             x: array<real>, y: array<real>, z: array<real>, outSize: nat, minStep: real,
             merge: array?<int>, mr: real, adjust: int) returns (r: int)
    requires Solvable(m)
    requires outSize <= |a| && outSize <= |b|
    requires x != y && y != z && x != z
    requires SlotsFit(outSize, adjust, x.Length) && SlotsFit(outSize, adjust, y.Length) && SlotsFit(outSize, adjust, z.Length)
    requires merge != null ==> SlotsFit(outSize, adjust, merge.Length) && MergeFits(a, b, outSize, mr)
    modifies x, y, z, merge
    ensures r == 0
    ensures Placed(x[..], old(x[..]), SimulOutputs(m, a, b, outSize, 0), outSize, adjust)
    ensures Placed(y[..], old(y[..]), SimulOutputs(m, a, b, outSize, 1), outSize, adjust)
    ensures Placed(z[..], old(z[..]), SimulOutputs(m, a, b, outSize, 2), outSize, adjust)
    ensures merge != null ==> Placed(merge[..], old(merge[..]), SimulMerges(a, b, outSize, mr), outSize, adjust)
  {
    var idx := 0;
    while idx < outSize
      invariant 0 <= idx <= outSize
      invariant Placed(x[..], old(x[..]), SimulOutputs(m, a, b, outSize, 0), idx, adjust)
      invariant Placed(y[..], old(y[..]), SimulOutputs(m, a, b, outSize, 1), idx, adjust)
      invariant Placed(z[..], old(z[..]), SimulOutputs(m, a, b, outSize, 2), idx, adjust)
      invariant merge != null ==> Placed(merge[..], old(merge[..]), SimulMerges(a, b, outSize, mr), idx, adjust)
    {
      Step(a, b, m, idx, x, y, z, merge, mr, adjust, outSize,
           old(x[..]), old(y[..]), old(z[..]), if merge != null then old(merge[..]) else []);
      idx := idx + 1;
    }
    r := 0;
  }
}
