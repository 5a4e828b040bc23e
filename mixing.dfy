/** The linear three-material mixing model shared by every solver of libdect:
    six coefficients, the (ab, ratio) parameterisation of a fraction triple,
    the squared-residual cost, and the cyclic material permutation used by the
    "enhanced" search. Floating-point values are read as exact reals. */
module Mixing {

  /** Expected attenuation of materials 1, 2, 3 in image A and in image B. */
  datatype Coeffs = Coeffs(alphaA: real, betaA: real, gammaA: real,
                           alphaB: real, betaB: real, gammaB: real)

  /** Fractions of materials 1, 2, 3 in one voxel. */
  datatype Fractions = Fractions(a: real, b: real, c: real)

  /** Two attenuation values, one per energy channel. */
  datatype Pair = Pair(inA: real, inB: real)

  predicate InUnit(x: real) { 0.0 <= x <= 1.0 }

  /** Each fraction lies in [0,1] and the three sum to one. */
  predicate OnSimplex(f: Fractions) {
    InUnit(f.a) && InUnit(f.b) && InUnit(f.c) && f.a + f.b + f.c == 1.0
  }

  /** a = ab*ratio, b = ab*(1-ratio), c = 1-ab: clamping ab and ratio to [0,1]
      is enough to stay on the simplex. */
  function Split(ab: real, ratio: real): (f: Fractions)
    ensures f.a + f.b + f.c == 1.0
    ensures f.a + f.b == ab
    ensures InUnit(ab) && InUnit(ratio) ==> OnSimplex(f)
  {
    var f := Fractions(ab * ratio, ab * (1.0 - ratio), 1.0 - ab);
    if InUnit(ab) && InUnit(ratio) then
      ProductInUnit(ab, ratio);
      ProductInUnit(ab, 1.0 - ratio);
      f
    else f
  }

  lemma ProductInUnit(x: real, y: real)
    requires InUnit(x) && InUnit(y)
    ensures InUnit(x * y) && x * y <= x
  {
    assert x * y <= x * 1.0;
  }

  /** The search loops compute c as 1 - a - b from the already rounded a and
      b; over the reals that is the same c as 1 - ab. */
  lemma ComplementForms(ab: real, ratio: real)
    ensures 1.0 - ab * ratio - ab * (1.0 - ratio) == Split(ab, ratio).c
  {
  }

  /** Predicted attenuation of a voxel holding fractions f. */
  function Predict(m: Coeffs, f: Fractions): Pair
  {
    Pair(m.alphaA * f.a + m.betaA * f.b + m.gammaA * f.c,
         m.alphaB * f.a + m.betaB * f.b + m.gammaB * f.c)
  }

  function Sq(x: real): real { x * x }

  /** Sum of squared residuals between the prediction for (ab, ratio) and the
      measured pair (dA, dB). */
  function Cost(m: Coeffs, dA: real, dB: real, ab: real, ratio: real): real
  {
    var p := Predict(m, Split(ab, ratio));
    Sq(p.inA - dA) + Sq(p.inB - dB)
  }

  /** The coefficients seen by run i of the enhanced search: run 0 keeps the
      order (1, 2, 3), run 1 uses (3, 1, 2) and run 2 uses (2, 3, 1). */
  function Permute(m: Coeffs, i: int): Coeffs
    requires 0 <= i < 3
  {
    match i
    case 0 => m
    case 1 => Coeffs(m.gammaA, m.alphaA, m.betaA, m.gammaB, m.alphaB, m.betaB)
    case 2 => Coeffs(m.betaA, m.gammaA, m.alphaA, m.betaB, m.gammaB, m.alphaB)
  }

  /** Maps the fractions found in the frame of run i back to materials
      (1, 2, 3). */
  function Reassemble(i: int, ab: real, ratio: real): Fractions
    requires 0 <= i < 3
  {
    var s := Split(ab, ratio);
    match i
    case 0 => s
    case 1 => Fractions(s.b, s.c, s.a)
    case 2 => Fractions(s.c, s.a, s.b)
  }

  /** The reassembled triple, weighted by the ORIGINAL coefficients, predicts
      exactly what the permuted frame predicted, and it is on the simplex
      whenever ab and ratio are in [0,1]. */
  lemma ReassembleAgrees(m: Coeffs, i: int, ab: real, ratio: real)
    requires 0 <= i < 3
    ensures Predict(m, Reassemble(i, ab, ratio)) == Predict(Permute(m, i), Split(ab, ratio))
    ensures InUnit(ab) && InUnit(ratio) ==> OnSimplex(Reassemble(i, ab, ratio))
  {
  }

  function Add(f: Fractions, g: Fractions): Fractions {
    Fractions(f.a + g.a, f.b + g.b, f.c + g.c)
  }

  function Scale(f: Fractions, k: real): Fractions
    requires k != 0.0
  {
    Fractions(f.a / k, f.b / k, f.c / k)
  }

  function Zero(): Fractions { Fractions(0.0, 0.0, 0.0) }

  /** Componentwise sum of a sequence of triples. */
  function Total(fs: seq<Fractions>): Fractions {
    if fs == [] then Zero() else Add(Total(fs[..|fs| - 1]), fs[|fs| - 1])
  }

  /** Adding the next triple to a running total. */
  lemma TotalStep(fs: seq<Fractions>, i: int)
    requires 0 <= i < |fs|
    ensures Total(fs[..i + 1]) == Add(Total(fs[..i]), fs[i])
  {
    assert fs[..i + 1][..i] == fs[..i];
  }

  /** The total of k triples on the simplex has components in [0,k] summing
      to k. */
  lemma {:induction false} TotalBounds(fs: seq<Fractions>)
    requires forall i :: 0 <= i < |fs| ==> OnSimplex(fs[i])
    ensures var t := Total(fs);
      0.0 <= t.a <= |fs| as real && 0.0 <= t.b <= |fs| as real && 0.0 <= t.c <= |fs| as real
      && t.a + t.b + t.c == |fs| as real
  {
    if fs != [] {
      TotalBounds(fs[..|fs| - 1]);
    }
  }

  /** Averaging (dividing by k only when k > 1) triples on the simplex gives a
      triple on the simplex. */
  lemma AverageOnSimplex(fs: seq<Fractions>)
    requires |fs| >= 1
    requires forall i :: 0 <= i < |fs| ==> OnSimplex(fs[i])
    ensures OnSimplex(if |fs| > 1 then Scale(Total(fs), |fs| as real) else Total(fs))
  {
    TotalBounds(fs);
    var t := Total(fs);
    var k := |fs| as real;
    if |fs| > 1 {
      DivideInUnit(t.a, k);
      DivideInUnit(t.b, k);
      DivideInUnit(t.c, k);
      DivideSum(t.a, t.b, t.c, k);
    }
  }

  lemma DivideSum(x: real, y: real, z: real, k: real)
    requires k > 0.0 && x + y + z == k
    ensures x / k + y / k + z / k == 1.0
  {
    assert x / k + y / k + z / k == (x + y + z) / k;
  }

  lemma DivideInUnit(x: real, k: real)
    requires k > 0.0 && 0.0 <= x <= k
    ensures InUnit(x / k)
  {
  }
}
