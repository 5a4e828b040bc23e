/** The per-voxel search shared by the three search solvers
    (libdect/cpu_template.cpp, libdect/cpu.cpp, dect/cpu.cpp): the clamped
    four-neighbour choice, the coarse 11 x 11 grid scan, and the step-halving
    coordinate descent.

    Each loop of the source is a method here, proved equal to a specification
    function (FirstMin, Scan, Refine) whose contract or lemmas state what the
    loop promises. */
module Search {
  import opened Mixing

  /** The error the search minimises, as a function of (ab, ratio). */
  type CostFn = (real, real) -> real

  /** The squared-residual error of the mixing model for coefficients m and
      measured pair (dA, dB). */
  function CostOf(m: Coeffs, dA: real, dB: real): CostFn {
    (ab: real, ratio: real) => Cost(m, dA, dB, ab, ratio)
  }

  /** Both best_err and cur_error start at 5000 * 5000. */
  const InitialError: real := 25000000.0

  /** Clamping into [0,1] is the identity on [0,1] and lands in [0,1]. */
  function Clamp01(x: real): (r: real)
    ensures InUnit(r)
    ensures InUnit(x) ==> r == x
  {
    if x < 0.0 then 0.0 else if x > 1.0 then 1.0 else x
  }

  /** The four neighbours are tried in the order +ab, +ratio, -ab, -ratio;
      AbDelta and RatioDelta give the direction (-1, 0 or +1) along each
      coordinate. */
  function AbDelta(j: int): int
    requires 0 <= j < 4
  {
    if j == 0 then 1 else if j == 2 then -1 else 0
  }

  function RatioDelta(j: int): int
    requires 0 <= j < 4
  {
    if j == 1 then 1 else if j == 3 then -1 else 0
  }

  /** delta * step for a direction delta in {-1, 0, 1}. */
  function Offset(delta: int, step: real): real {
    if delta == 1 then step else if delta == -1 then -step else 0.0
  }

  /** A position of the search: ab = a + b and ratio = a / (a + b). */
  datatype Point = Point(ab: real, ratio: real)

  /** Neighbour j of (ab, ratio) at distance step, both coordinates clamped:
      every candidate the descent looks at lies in [0,1] x [0,1], and it
      differs from (ab, ratio) along one coordinate only. */
  function Neighbour(ab: real, ratio: real, step: real, j: int): (n: Point)
    requires 0 <= j < 4
    ensures InUnit(n.ab) && InUnit(n.ratio)
    ensures InUnit(ab) && InUnit(ratio) && (j == 1 || j == 3) ==> n.ab == ab
    ensures InUnit(ab) && InUnit(ratio) && (j == 0 || j == 2) ==> n.ratio == ratio
  {
    Point(Clamp01(ab + Offset(AbDelta(j), step)), Clamp01(ratio + Offset(RatioDelta(j), step)))
  }

  function NeighbourCost(cost: CostFn, ab: real, ratio: real, step: real, j: int): real
    requires 0 <= j < 4
  {
    var n := Neighbour(ab, ratio, step, j);
    cost(n.ab, n.ratio)
  }

  function NeighbourCosts(cost: CostFn, ab: real, ratio: real, step: real): seq<real>
  {
    [NeighbourCost(cost, ab, ratio, step, 0), NeighbourCost(cost, ab, ratio, step, 1),
     NeighbourCost(cost, ab, ratio, step, 2), NeighbourCost(cost, ab, ratio, step, 3)]
  }

  /** No neighbour at distance step costs less than err. */
  ghost predicate NoCheaperNeighbour(cost: CostFn, ab: real, ratio: real, step: real, err: real) {
    NeighbourCost(cost, ab, ratio, step, 0) >= err && NeighbourCost(cost, ab, ratio, step, 1) >= err
    && NeighbourCost(cost, ab, ratio, step, 2) >= err && NeighbourCost(cost, ab, ratio, step, 3) >= err
  }

  /** r (the descent's final probe) was reached by halving at step 2 * r.step,
      which happens only when no neighbour at that step is cheaper. */
  ghost predicate LocalMin(cost: CostFn, r: Probe) {
    NoCheaperNeighbour(cost, r.ab, r.ratio, 2.0 * r.step, r.err)
  }

  /** Index of the first smallest element: the element kept by a scan that
      replaces its candidate only on a strictly smaller value. */
  function FirstMin(cs: seq<real>): (k: nat)
    requires |cs| > 0
    ensures k < |cs|
    ensures forall i :: 0 <= i < |cs| ==> cs[k] <= cs[i]
    ensures forall i :: 0 <= i < k ==> cs[k] < cs[i]
  {
    if |cs| == 1 then 0
    else
      var k := FirstMin(cs[..|cs| - 1]);
      if cs[|cs| - 1] < cs[k] then |cs| - 1 else k
  }

  /** Extending the scanned prefix by one element: the new element becomes
      the first minimum exactly when it is strictly smaller than the old one. */
  lemma FirstMinStep(cs: seq<real>, j: int)
    requires 0 <= j < |cs|
    ensures FirstMin(cs[..j + 1]) ==
      if j == 0 || cs[j] < cs[FirstMin(cs[..j])] then j else FirstMin(cs[..j])
  {
    if j > 0 {
      assert cs[..j + 1][..j] == cs[..j];
    }
  }

  /** One probe of the descent: position, step and the error to beat. */
  datatype Probe = Probe(ab: real, ratio: real, step: real, err: real)

  // ---------------------------------------------------------------------
  // Termination bookkeeping. Over the reals the descent stops because every
  // position it visits lies on a finite lattice: with step = 1/den, each
  // coordinate is (origin or 0) + k * step with -den <= k <= den. A move goes
  // to a lattice point whose cost is below the current error, so it leaves
  // the set of such points; a halving refines the lattice but brings
  // step / min_step one halving closer to the end.
  // ---------------------------------------------------------------------

  datatype Coord = Coord(shifted: bool, k: int)

  /** k * step, written as repeated addition so that lattice arithmetic stays
      linear. */
  function Mul(k: int, step: real): real
    decreases if k < 0 then -k else k
  {
    if k == 0 then 0.0 else if k > 0 then Mul(k - 1, step) + step else Mul(k + 1, step) - step
  }

  function At(c: Coord, origin: real, step: real): real {
    (if c.shifted then origin else 0.0) + Mul(c.k, step)
  }

  datatype Lattice = Lattice(abOrigin: real, ratioOrigin: real, den: int, abAt: Coord, ratioAt: Coord)

  ghost predicate OnLattice(g: Lattice, p: Probe) {
    g.den >= 1 && Mul(g.den, p.step) == 1.0
    && InUnit(g.abOrigin) && InUnit(g.ratioOrigin)
    && InUnit(p.ab) && InUnit(p.ratio)
    && p.ab == At(g.abAt, g.abOrigin, p.step)
    && p.ratio == At(g.ratioAt, g.ratioOrigin, p.step)
    && -g.den <= g.abAt.k <= g.den && -g.den <= g.ratioAt.k <= g.den
  }

  /** The lattice points (at the given step) whose cost is below bound. */
  ghost function Below(cost: CostFn, g: Lattice, step: real, bound: real): set<(bool, int, bool, int)>
  {
    set fa: bool, ka: int, fr: bool, kr: int |
      -g.den <= ka <= g.den && -g.den <= kr <= g.den
      && cost(At(Coord(fa, ka), g.abOrigin, step), At(Coord(fr, kr), g.ratioOrigin, step)) < bound
      :: (fa, ka, fr, kr)
  }

  /** The lattice coordinate of Clamp01(At(c) + delta * step). */
  function Shift(c: Coord, origin: real, step: real, den: int, delta: int): Coord {
    var v := At(c, origin, step) + Offset(delta, step);
    if v < 0.0 then Coord(false, 0) else if v > 1.0 then Coord(false, den) else Coord(c.shifted, c.k + delta)
  }

  function Moved(g: Lattice, step: real, j: int): Lattice
    requires 0 <= j < 4
  {
    g.(abAt := Shift(g.abAt, g.abOrigin, step, g.den, AbDelta(j)),
       ratioAt := Shift(g.ratioAt, g.ratioOrigin, step, g.den, RatioDelta(j)))
  }

  function Halved(g: Lattice): Lattice {
    g.(den := 2 * g.den,
       abAt := Coord(g.abAt.shifted, 2 * g.abAt.k),
       ratioAt := Coord(g.ratioAt.shifted, 2 * g.ratioAt.k))
  }

  lemma MulStep(k: int, step: real)
    ensures Mul(k + 1, step) == Mul(k, step) + step
  {
  }

  lemma {:induction false} MulIsProduct(k: int, step: real)
    ensures Mul(k, step) == k as real * step
    decreases if k < 0 then -k else k
  {
    if k > 0 {
      MulIsProduct(k - 1, step);
      assert (k - 1) as real * step + step == k as real * step;
    } else if k < 0 {
      MulIsProduct(k + 1, step);
      assert (k + 1) as real * step - step == k as real * step;
    }
  }

  lemma {:induction false} MulDouble(k: int, step: real)
    ensures Mul(2 * k, step / 2.0) == Mul(k, step)
    decreases if k < 0 then -k else k
  {
    if k > 0 {
      MulDouble(k - 1, step);
      MulStep(2 * k - 1, step / 2.0);
      MulStep(2 * k - 2, step / 2.0);
    } else if k < 0 {
      MulDouble(k + 1, step);
      MulStep(2 * k, step / 2.0);
      MulStep(2 * k + 1, step / 2.0);
    }
  }

  lemma {:induction false} MulMono(a: int, b: int, step: real)
    requires a <= b && step > 0.0
    ensures Mul(a, step) <= Mul(b, step)
    decreases b - a
  {
    if a < b {
      MulMono(a, b - 1, step);
      MulStep(b - 1, step);
    }
  }

  lemma {:induction false} MulNeg(k: int, step: real)
    ensures Mul(-k, step) == -Mul(k, step)
    decreases if k < 0 then -k else k
  {
    if k > 0 {
      MulNeg(k - 1, step);
    } else if k < 0 {
      MulNeg(k + 1, step);
    }
  }

  lemma StepPositive(step: real, den: int)
    requires den >= 1 && Mul(den, step) == 1.0
    ensures step > 0.0
  {
    MulIsProduct(den, step);
  }

  /** A lattice coordinate in [0,1] has |k| <= den. */
  lemma KBound(c: Coord, origin: real, step: real, den: int)
    requires den >= 1 && Mul(den, step) == 1.0 && InUnit(origin)
    requires InUnit(At(c, origin, step))
    ensures -den <= c.k <= den
  {
    StepPositive(step, den);
    MulStep(den, step);
    if c.k > den {
      MulMono(den + 1, c.k, step);
    }
    if c.k < -den {
      MulMono(c.k, -den - 1, step);
      MulNeg(den + 1, step);
    }
  }

  lemma ShiftAt(c: Coord, origin: real, step: real, den: int, delta: int)
    requires den >= 1 && Mul(den, step) == 1.0 && InUnit(origin)
    requires -1 <= delta <= 1
    ensures At(Shift(c, origin, step, den, delta), origin, step) == Clamp01(At(c, origin, step) + Offset(delta, step))
    ensures -den <= Shift(c, origin, step, den, delta).k <= den
  {
    var v := At(c, origin, step) + Offset(delta, step);
    if 0.0 <= v <= 1.0 {
      var n := Coord(c.shifted, c.k + delta);
      if delta == 1 {
        MulStep(c.k, step);
      } else if delta == -1 {
        MulStep(c.k - 1, step);
      }
      assert At(n, origin, step) == v;
      KBound(n, origin, step, den);
    }
  }

  /** A move to neighbour j lands on the same lattice, at Moved(g, step, j). */
  lemma MovedOnLattice(g: Lattice, p: Probe, j: int, e: real)
    requires OnLattice(g, p) && 0 <= j < 4
    ensures var n := Neighbour(p.ab, p.ratio, p.step, j);
      var g' := Moved(g, p.step, j);
      OnLattice(g', Probe(n.ab, n.ratio, p.step, e))
      && n.ab == At(g'.abAt, g'.abOrigin, p.step) && n.ratio == At(g'.ratioAt, g'.ratioOrigin, p.step)
  {
    ShiftAt(g.abAt, g.abOrigin, p.step, g.den, AbDelta(j));
    ShiftAt(g.ratioAt, g.ratioOrigin, p.step, g.den, RatioDelta(j));
  }

  /** Reaching a lattice point whose cost e is below err removes it from the
      points below the error to beat. */
  lemma MoveShrinks(cost: CostFn, g: Lattice, step: real, a: Coord, r: Coord, e: real, err: real)
    requires -g.den <= a.k <= g.den && -g.den <= r.k <= g.den
    requires cost(At(a, g.abOrigin, step), At(r, g.ratioOrigin, step)) == e
    requires e < err
    ensures |Below(cost, g, step, e)| < |Below(cost, g, step, err)|
  {
    InBelow(cost, g, step, err, a.shifted, a.k, r.shifted, r.k);
    InBelow(cost, g, step, e, a.shifted, a.k, r.shifted, r.k);
    BelowMono(cost, g, step, e, err);
    ProperSubsetCard(Below(cost, g, step, e), Below(cost, g, step, err));
  }

  lemma InBelow(cost: CostFn, g: Lattice, step: real, bound: real, fa: bool, ka: int, fr: bool, kr: int)
    requires -g.den <= ka <= g.den && -g.den <= kr <= g.den
    ensures (fa, ka, fr, kr) in Below(cost, g, step, bound)
        <==> cost(At(Coord(fa, ka), g.abOrigin, step), At(Coord(fr, kr), g.ratioOrigin, step)) < bound
  {
  }

  /** Below depends only on the lattice's den and origins, not on where the
      probe sits. */
  lemma BelowFrame(cost: CostFn, g: Lattice, h: Lattice, step: real, bound: real)
    requires g.den == h.den && g.abOrigin == h.abOrigin && g.ratioOrigin == h.ratioOrigin
    ensures Below(cost, g, step, bound) == Below(cost, h, step, bound)
  {
  }

  lemma BelowMono(cost: CostFn, g: Lattice, step: real, lo: real, hi: real)
    requires lo <= hi
    ensures Below(cost, g, step, lo) <= Below(cost, g, step, hi)
  {
  }

  lemma HalvedOnLattice(g: Lattice, p: Probe)
    requires OnLattice(g, p)
    ensures OnLattice(Halved(g), p.(step := p.step / 2.0))
  {
    MulDouble(g.abAt.k, p.step);
    MulDouble(g.ratioAt.k, p.step);
    MulDouble(g.den, p.step);
  }

  lemma FloorDrops(step: real, minStep: real)
    requires minStep > 0.0 && step >= minStep
    ensures (step / minStep).Floor >= 1
    ensures ((step / 2.0) / minStep).Floor < (step / minStep).Floor
  {
    var x := step / minStep;
    assert x >= 1.0;
    assert (step / 2.0) / minStep == x / 2.0;
  }

  lemma {:induction false} SubsetCard<T>(a: set<T>, b: set<T>)
    requires a <= b
    ensures |a| <= |b|
  {
    if a != {} {
      var y :| y in a;
      SubsetCard(a - {y}, b - {y});
    }
  }

  lemma ProperSubsetCard<T>(a: set<T>, b: set<T>)
    requires a < b
    ensures |a| < |b|
  {
    var x :| x in b && x !in a;
    SubsetCard(a, b - {x});
  }

  /** Whether the first cheapest neighbour beats the error to beat. */
  predicate Improves(cost: CostFn, p: Probe) {
    var cs := NeighbourCosts(cost, p.ab, p.ratio, p.step);
    cs[FirstMin(cs)] < p.err
  }

  /** One iteration of the descent loop: move to the first cheapest clamped
      neighbour when its cost is strictly below the error to beat, otherwise
      halve the step. */
  function Round(cost: CostFn, p: Probe): Probe
  {
    var cs := NeighbourCosts(cost, p.ab, p.ratio, p.step);
    var j := FirstMin(cs);
    var n := Neighbour(p.ab, p.ratio, p.step, j);
    if Improves(cost, p) then Probe(n.ab, n.ratio, p.step, cs[j]) else p.(step := p.step / 2.0)
  }

  /** The lattice that Round's result lies on. */
  function RoundLattice(cost: CostFn, g: Lattice, p: Probe): Lattice
  {
    if Improves(cost, p) then Moved(g, p.step, FirstMin(NeighbourCosts(cost, p.ab, p.ratio, p.step)))
    else Halved(g)
  }

  /** A move keeps the step, reaches a position whose cost is the new,
      strictly smaller error, and leaves fewer lattice points below it. */
  lemma RoundMoves(cost: CostFn, p: Probe, g: Lattice)
    requires OnLattice(g, p) && Improves(cost, p)
    ensures OnLattice(RoundLattice(cost, g, p), Round(cost, p))
    ensures Round(cost, p).step == p.step && Round(cost, p).err < p.err
    ensures Round(cost, p).err == cost(Round(cost, p).ab, Round(cost, p).ratio)
    ensures |Below(cost, RoundLattice(cost, g, p), p.step, Round(cost, p).err)| < |Below(cost, g, p.step, p.err)|
  {
    var cs := NeighbourCosts(cost, p.ab, p.ratio, p.step);
    var j := FirstMin(cs);
    var n := Neighbour(p.ab, p.ratio, p.step, j);
    MovedOnLattice(g, p, j, cs[j]);
    var g' := Moved(g, p.step, j);
    MoveShrinks(cost, g, p.step, g'.abAt, g'.ratioAt, cs[j], p.err);
    BelowFrame(cost, g', g, p.step, cs[j]);
    assert Round(cost, p) == Probe(n.ab, n.ratio, p.step, cs[j]);
    assert RoundLattice(cost, g, p) == g';
  }

  /** A halving keeps the position and the error, and happens only when no
      neighbour at the old step (twice the new one) is cheaper. */
  lemma RoundHalves(cost: CostFn, p: Probe, g: Lattice)
    requires OnLattice(g, p) && !Improves(cost, p)
    ensures var q := Round(cost, p);
      OnLattice(RoundLattice(cost, g, p), q)
      && q == p.(step := p.step / 2.0)
      && LocalMin(cost, q)
  {
    var cs := NeighbourCosts(cost, p.ab, p.ratio, p.step);
    var j := FirstMin(cs);
    HalvedOnLattice(g, p);
    assert 2.0 * (p.step / 2.0) == p.step;
    assert cs[j] <= cs[0] && cs[j] <= cs[1] && cs[j] <= cs[2] && cs[j] <= cs[3];
  }

  /** The step-halving descent from probe p, as a function: rounds until the
      step drops below minStep. Its termination is the lattice argument
      above; RefineSound states what it computes. */
  ghost function Refine(cost: CostFn, p: Probe, minStep: real, g: Lattice): (r: Probe)
    requires minStep > 0.0
    requires OnLattice(g, p)
    ensures r.step < minStep
    ensures p.step < minStep ==> r == p
    decreases (p.step / minStep).Floor, |Below(cost, g, p.step, p.err)|
  {
    if p.step < minStep then p
    else
      FloorDrops(p.step, minStep);
      if Improves(cost, p) then
        RoundMoves(cost, p, g);
        Refine(cost, Round(cost, p), minStep, RoundLattice(cost, g, p))
      else
        RoundHalves(cost, p, g);
        Refine(cost, Round(cost, p), minStep, RoundLattice(cost, g, p))
  }

  /** What the descent promises about its result: the position stays in
      [0,1] x [0,1]; the error never increases; and the final error is either
      the untouched starting error (at the untouched starting position) or
      the cost of the final position. */
  lemma {:induction false} RefineSound(cost: CostFn, p: Probe, minStep: real, g: Lattice)
    requires minStep > 0.0
    requires OnLattice(g, p)
    ensures var r := Refine(cost, p, minStep, g);
      InUnit(r.ab) && InUnit(r.ratio) && r.err <= p.err
      && ((r.ab == p.ab && r.ratio == p.ratio && r.err == p.err)
          || (r.err < p.err && r.err == cost(r.ab, r.ratio)))
    decreases (p.step / minStep).Floor, |Below(cost, g, p.step, p.err)|
  {
    if p.step >= minStep {
      FloorDrops(p.step, minStep);
      if Improves(cost, p) {
        RoundMoves(cost, p, g);
      } else {
        RoundHalves(cost, p, g);
      }
      RefineSound(cost, Round(cost, p), minStep, RoundLattice(cost, g, p));
    }
  }

  /** When the descent ran at all, it stopped at a local minimum: no
      neighbour at the last step it tried (twice the final step, which was
      still at least minStep) is cheaper than the final error. */
  lemma {:induction false} RefineLocalMin(cost: CostFn, p: Probe, minStep: real, g: Lattice)
    requires minStep > 0.0
    requires OnLattice(g, p)
    requires p.step >= minStep
    ensures var r := Refine(cost, p, minStep, g);
      minStep <= 2.0 * r.step && LocalMin(cost, r)
    decreases (p.step / minStep).Floor, |Below(cost, g, p.step, p.err)|
  {
    FloorDrops(p.step, minStep);
    if Improves(cost, p) {
      RoundMoves(cost, p, g);
    } else {
      RoundHalves(cost, p, g);
    }
    var q := Round(cost, p);
    var r := Refine(cost, q, minStep, RoundLattice(cost, g, p));
    assert Refine(cost, p, minStep, g) == r;
    if q.step >= minStep {
      RefineLocalMin(cost, q, minStep, RoundLattice(cost, g, p));
    } else {
      assert r == q;
    }
  }

  /** The body of the `for (j = 0; j < 4; j++)` loop up to the comparison:
      step along direction j, clamp both coordinates into [0,1], and
      evaluate the error there. */
  method Candidate(m: Coeffs, dA: real, dB: real, curAb: real, curRatio: real, curStep: real, j: int)
    returns (totErr: real, newAb: real, newRatio: real)
    requires 0 <= j < 4
    ensures Point(newAb, newRatio) == Neighbour(curAb, curRatio, curStep, j)
    ensures totErr == NeighbourCost(CostOf(m, dA, dB), curAb, curRatio, curStep, j)
  {
    match j {
      case 0 => newAb, newRatio := curAb + curStep, curRatio;
      case 1 => newAb, newRatio := curAb, curRatio + curStep;
      case 2 => newAb, newRatio := curAb - curStep, curRatio;
      case 3 => newAb, newRatio := curAb, curRatio - curStep;
    }
    ghost var rawAb, rawRatio := newAb, newRatio;
    assert rawAb == curAb + Offset(AbDelta(j), curStep);
    assert rawRatio == curRatio + Offset(RatioDelta(j), curStep);
    if newAb < 0.0 { newAb := 0.0; }
    if newAb > 1.0 { newAb := 1.0; }
    if newRatio < 0.0 { newRatio := 0.0; }
    if newRatio > 1.0 { newRatio := 1.0; }
    assert newAb == Clamp01(rawAb) && newRatio == Clamp01(rawRatio);
    assert Point(newAb, newRatio) == Neighbour(curAb, curRatio, curStep, j);
    totErr := Cost(m, dA, dB, newAb, newRatio);
  }

  /** One pass of the `for (j = 0; j < 4; j++)` loop: keeps the first
      candidate whose error is smallest. */
  method BestNeighbour(m: Coeffs, dA: real, dB: real, curAb: real, curRatio: real, curStep: real)
    returns (minErr: real, minAb: real, minRatio: real)
    ensures var cs := NeighbourCosts(CostOf(m, dA, dB), curAb, curRatio, curStep);
      var j := FirstMin(cs);
      minErr == cs[j] && Point(minAb, minRatio) == Neighbour(curAb, curRatio, curStep, j)
  {
    ghost var cs := NeighbourCosts(CostOf(m, dA, dB), curAb, curRatio, curStep);
    minErr, minAb, minRatio := 0.0, 0.0, 0.0;
    ghost var k := 0;
    var j := 0;
    while j < 4
      invariant 0 <= j <= 4
      invariant j > 0 ==> 0 <= k < j && k == FirstMin(cs[..j])
      invariant j > 0 ==> minErr == cs[k] && Point(minAb, minRatio) == Neighbour(curAb, curRatio, curStep, k)
    {
      var totErr, newAb, newRatio := Candidate(m, dA, dB, curAb, curRatio, curStep, j);
      assert totErr == cs[j];
      FirstMinStep(cs, j);
      if j == 0 || totErr < minErr {
        minErr, minRatio, minAb := totErr, newRatio, newAb;
        k := j;
      }
      j := j + 1;
    }
    assert cs[..4] == cs;
  }

  /** One round of the descent preserves where Refine ends up, keeps the
      probe on a lattice, and decreases the termination measure. */
  lemma RoundProgress(cost: CostFn, p: Probe, minStep: real, g: Lattice)
    requires minStep > 0.0 && OnLattice(g, p) && p.step >= minStep
    ensures var q := Round(cost, p);
      var g' := RoundLattice(cost, g, p);
      OnLattice(g', q)
      && Refine(cost, q, minStep, g') == Refine(cost, p, minStep, g)
      && (p.step / minStep).Floor >= 1
      && ((q.step / minStep).Floor < (p.step / minStep).Floor
          || ((q.step / minStep).Floor == (p.step / minStep).Floor
              && |Below(cost, g', q.step, q.err)| < |Below(cost, g, p.step, p.err)|))
  {
    FloorDrops(p.step, minStep);
    if Improves(cost, p) {
      RoundMoves(cost, p, g);
    } else {
      RoundHalves(cost, p, g);
    }
  }

  /** The body of the `while (cur_step >= min_step)` loop: move to the first
      cheapest neighbour if it beats cur_error, otherwise halve cur_step. */
  method DescendRound(m: Coeffs, dA: real, dB: real, curAb: real, curRatio: real, curStep: real, curError: real)
    returns (ab: real, ratio: real, step: real, err: real)
    ensures Probe(ab, ratio, step, err) == Round(CostOf(m, dA, dB), Probe(curAb, curRatio, curStep, curError))
  {
    var minErr, minAb, minRatio := BestNeighbour(m, dA, dB, curAb, curRatio, curStep);
    if minErr < curError {
      ab, ratio, step, err := minAb, minRatio, curStep, minErr;
    } else {
      ab, ratio, step, err := curAb, curRatio, curStep / 2.0, curError;
    }
  }

  /** The `while (cur_step >= min_step)` loop, started at (ab0, ratio0) with
      step step0 and error err0; g is the lattice that start lies on. */
  method Descend(m: Coeffs, dA: real, dB: real, ab0: real, ratio0: real, step0: real, err0: real,
                 minStep: real, ghost g: Lattice)
    returns (curAb: real, curRatio: real)
    requires minStep > 0.0
    requires OnLattice(g, Probe(ab0, ratio0, step0, err0))
    ensures var r := Refine(CostOf(m, dA, dB), Probe(ab0, ratio0, step0, err0), minStep, g);
      curAb == r.ab && curRatio == r.ratio
  {
    ghost var cost := CostOf(m, dA, dB);
    ghost var goal := Refine(cost, Probe(ab0, ratio0, step0, err0), minStep, g);
    var curStep, curError := step0, err0;
    curAb, curRatio := ab0, ratio0;
    ghost var lat := g;
    while curStep >= minStep
      invariant OnLattice(lat, Probe(curAb, curRatio, curStep, curError))
      invariant Refine(cost, Probe(curAb, curRatio, curStep, curError), minStep, lat) == goal
      decreases (curStep / minStep).Floor, |Below(cost, lat, curStep, curError)|
    {
      ghost var p := Probe(curAb, curRatio, curStep, curError);
      RoundProgress(cost, p, minStep, lat);
      lat := RoundLattice(cost, lat, p);
      curAb, curRatio, curStep, curError := DescendRound(m, dA, dB, curAb, curRatio, curStep, curError);
    }
  }

  // ---------------------------------------------------------------------
  // Coarse scan over the 11 x 11 grid (0, 0.1, ..., 1.0)^2, ab-major.
  // ---------------------------------------------------------------------

  /** Cost of grid point n: ab = (n / 11) / 10, ratio = (n % 11) / 10. */
  function GridCost(cost: CostFn, n: int): real
    requires 0 <= n < 121
  {
    cost((n / 11) as real / 10.0, (n % 11) as real / 10.0)
  }

  /** The costs of the 121 grid points in scan order. */
  function GridCosts(cost: CostFn): (cs: seq<real>)
    ensures |cs| == 121
    ensures forall n :: 0 <= n < 121 ==> cs[n] == GridCost(cost, n)
  {
    seq(121, n requires 0 <= n < 121 => GridCost(cost, n))
  }

  datatype Best = Best(err: real, abIndex: int, ratioIndex: int)

  /** The scan's state after the grid points whose costs are cs: a strictly
      smaller error replaces the best so far, so the first cheapest point is
      kept. */
  function Scan(cs: seq<real>): (r: Best)
    requires |cs| <= 121
    ensures 0 <= r.abIndex <= 10 && 0 <= r.ratioIndex <= 10
  {
    if |cs| == 0 then Best(InitialError, 0, 0)
    else
      var n := |cs| - 1;
      var r := Scan(cs[..n]);
      if cs[n] < r.err then Best(cs[n], n / 11, n % 11) else r
  }

  /** What the scan finds: no scanned point cheaper
      than its error; and, unless it stays at (0, 0) with error 5000^2
      because nothing costs less, the FIRST point of smallest cost. */
  lemma {:induction false} ScanBest(cs: seq<real>)
    requires |cs| <= 121
    ensures var r := Scan(cs);
      && r.err <= InitialError
      && (forall k :: 0 <= k < |cs| ==> r.err <= cs[k])
      && (r.err == InitialError ==> r.abIndex == 0 && r.ratioIndex == 0)
      && (r.err < InitialError ==>
            var w := 11 * r.abIndex + r.ratioIndex;
            w < |cs| && cs[w] == r.err
            && forall k :: 0 <= k < w ==> cs[k] > r.err)
  {
    if |cs| > 0 {
      var n := |cs| - 1;
      ScanBest(cs[..n]);
      if cs[n] < Scan(cs[..n]).err {
        assert 11 * (n / 11) + n % 11 == n;
      }
    }
  }

  /** Scanning grid point (i, j) after the points before it. */
  lemma ScanExtend(cs: seq<real>, i: int, j: int)
    requires |cs| == 121 && 0 <= i <= 10 && 0 <= j <= 10
    ensures var n := 11 * i + j;
      var r := Scan(cs[..n]);
      Scan(cs[..n + 1]) == if cs[n] < r.err then Best(cs[n], i, j) else r
  {
    var n := 11 * i + j;
    assert cs[..n + 1][..n] == cs[..n];
    assert n / 11 == i && n % 11 == j;
  }

  /** The body of the inner scan loop: the error at grid point (i, j). */
  method GridPoint(m: Coeffs, dA: real, dB: real, testAb: real, testRatio: real, i: int, j: int)
    returns (totErr: real)
    requires 0 <= i <= 10 && 0 <= j <= 10
    requires testAb == i as real / 10.0 && testRatio == j as real / 10.0
    ensures totErr == GridCosts(CostOf(m, dA, dB))[11 * i + j]
  {
    totErr := Cost(m, dA, dB, testAb, testRatio);
    assert (11 * i + j) / 11 == i && (11 * i + j) % 11 == j;
  }

  /** The two nested `for` loops of the coarse scan. test_ab and test_ratio
      are the k/10 grid values that the source reaches by adding 0.1. */
  method CoarseScan(m: Coeffs, dA: real, dB: real)
    returns (bestAb: real, bestRatio: real, ghost bi: int, ghost bj: int)
    ensures var r := Scan(GridCosts(CostOf(m, dA, dB)));
      bi == r.abIndex && bj == r.ratioIndex
      && bestAb == bi as real / 10.0 && bestRatio == bj as real / 10.0
  {
    ghost var cs := GridCosts(CostOf(m, dA, dB));
    var bestErr := InitialError;
    bestAb, bestRatio := 0.0, 0.0;
    bi, bj := 0, 0;
    var i := 0;
    while i <= 10
      invariant 0 <= i <= 11
      invariant Scan(cs[..11 * i]) == Best(bestErr, bi, bj)
      invariant bestAb == bi as real / 10.0 && bestRatio == bj as real / 10.0
    {
      var testAb := i as real / 10.0;
      var j := 0;
      while j <= 10
        invariant 0 <= j <= 11
        invariant Scan(cs[..11 * i + j]) == Best(bestErr, bi, bj)
        invariant bestAb == bi as real / 10.0 && bestRatio == bj as real / 10.0
      {
        var testRatio := j as real / 10.0;
        var totErr := GridPoint(m, dA, dB, testAb, testRatio, i, j);
        ScanExtend(cs, i, j);
        if totErr < bestErr {
          bestErr, bestAb, bestRatio := totErr, testAb, testRatio;
          bi, bj := i, j;
        }
        j := j + 1;
      }
      assert 11 * i + j == 11 * (i + 1);
      i := i + 1;
    }
    assert cs[..11 * i] == cs;
    assert Scan(cs) == Best(bestErr, bi, bj);
  }

  // ---------------------------------------------------------------------
  // One run of the scan-then-descend search, and the enhanced average.
  // ---------------------------------------------------------------------

  /** After the scan, the descent restarts from the best grid point with step
      0.05 = 1/20, so the lattice has den 20 and origin 0. */
  function ScanLattice(b: Best): Lattice {
    Lattice(0.0, 0.0, 20, Coord(false, 2 * b.abIndex), Coord(false, 2 * b.ratioIndex))
  }

  /** The descent's starting probe after the scan: the best grid point, step
      0.05 and the initial error 5000^2 (the scan's error is not carried over). */
  function ScanStart(b: Best): Probe {
    Probe(b.abIndex as real / 10.0, b.ratioIndex as real / 10.0, 0.05, InitialError)
  }

  lemma GridOnLattice(i: int)
    ensures Mul(2 * i, 0.05) == i as real / 10.0
  {
    MulIsProduct(2 * i, 0.05);
  }

  lemma ScanStartOnLattice(b: Best)
    requires 0 <= b.abIndex <= 10 && 0 <= b.ratioIndex <= 10
    ensures OnLattice(ScanLattice(b), ScanStart(b))
  {
    GridOnLattice(b.abIndex);
    GridOnLattice(b.ratioIndex);
    MulIsProduct(20, 0.05);
  }

  /** Where the descent of run i ends, in the frame of the permuted
      coefficients. */
  ghost function RunProbe(m: Coeffs, dA: real, dB: real, minStep: real, i: int): Probe
    requires minStep > 0.0 && 0 <= i < 3
  {
    var b := Scan(GridCosts(CostOf(Permute(m, i), dA, dB)));
    ScanStartOnLattice(b);
    Refine(CostOf(Permute(m, i), dA, dB), ScanStart(b), minStep, ScanLattice(b))
  }

  /** Run i of the scan-then-descend search, mapped back to materials
      (1, 2, 3). */
  ghost function ScanRun(m: Coeffs, dA: real, dB: real, minStep: real, i: int): Fractions
    requires minStep > 0.0 && 0 <= i < 3
  {
    var r := RunProbe(m, dA, dB, minStep, i);
    Reassemble(i, r.ab, r.ratio)
  }

  /** What one run delivers: fractions on the simplex that predict, under the
      original coefficients, what the final (ab, ratio) predicted in the
      permuted frame; an error no worse than the initial 5000^2 that is the
      cost of the final point unless the descent never moved; and, when
      minStep <= 0.05 so the descent ran, a local minimum at twice the final
      step. */
  lemma ScanRunSound(m: Coeffs, dA: real, dB: real, minStep: real, i: int)
    requires minStep > 0.0 && 0 <= i < 3
    ensures var r := RunProbe(m, dA, dB, minStep, i);
      var cost := CostOf(Permute(m, i), dA, dB);
      var f := ScanRun(m, dA, dB, minStep, i);
      && OnSimplex(f)
      && Predict(m, f) == Predict(Permute(m, i), Split(r.ab, r.ratio))
      && r.err <= InitialError
      && (r.err == InitialError || r.err == cost(r.ab, r.ratio))
      && (minStep <= 0.05 ==> LocalMin(cost, r))
  {
    var cost := CostOf(Permute(m, i), dA, dB);
    var b := Scan(GridCosts(cost));
    ScanStartOnLattice(b);
    RefineSound(cost, ScanStart(b), minStep, ScanLattice(b));
    if minStep <= 0.05 {
      RefineLocalMin(cost, ScanStart(b), minStep, ScanLattice(b));
    }
    var r := RunProbe(m, dA, dB, minStep, i);
    ReassembleAgrees(m, i, r.ab, r.ratio);
  }

  ghost function ScanRuns(m: Coeffs, dA: real, dB: real, minStep: real, k: int): (fs: seq<Fractions>)
    requires minStep > 0.0 && 0 <= k <= 3
    ensures |fs| == k
  {
    if k == 0 then [] else ScanRuns(m, dA, dB, minStep, k - 1) + [ScanRun(m, dA, dB, minStep, k - 1)]
  }

  /** Run i is the i-th entry of the runs. */
  lemma {:induction false} ScanRunsAt(m: Coeffs, dA: real, dB: real, minStep: real, k: int, i: int)
    requires minStep > 0.0 && 0 <= i < k <= 3
    ensures ScanRuns(m, dA, dB, minStep, k)[i] == ScanRun(m, dA, dB, minStep, i)
    decreases k
  {
    if i < k - 1 {
      ScanRunsAt(m, dA, dB, minStep, k - 1, i);
    }
  }

  /** `tot_best_* /= enhanced` only when enhanced > 1. */
  function Average(total: Fractions, enhanced: int): Fractions {
    if enhanced > 1 then Scale(total, enhanced as real) else total
  }

  /** The fraction triple the scan-then-descend search computes for one
      voxel: the runs 0 .. enhanced-1 (none when enhanced <= 0), summed and
      averaged. */
  ghost function SearchResult(m: Coeffs, dA: real, dB: real, enhanced: int, minStep: real): Fractions
    requires minStep > 0.0 && enhanced <= 3
  {
    Average(Total(ScanRuns(m, dA, dB, minStep, if enhanced < 0 then 0 else enhanced)), enhanced)
  }

  /** The averaged result is on the simplex whenever 1 <= enhanced <= 3, and
      all zero when enhanced <= 0. */
  lemma SearchResultSound(m: Coeffs, dA: real, dB: real, enhanced: int, minStep: real)
    requires minStep > 0.0 && enhanced <= 3
    ensures 1 <= enhanced ==> OnSimplex(SearchResult(m, dA, dB, enhanced, minStep))
    ensures enhanced <= 0 ==> SearchResult(m, dA, dB, enhanced, minStep) == Zero()
  {
    if enhanced >= 1 {
      var runs := ScanRuns(m, dA, dB, minStep, enhanced);
      ScanRunsOnSimplex(m, dA, dB, minStep, enhanced);
      AverageRunsOnSimplex(runs);
      assert SearchResult(m, dA, dB, enhanced, minStep) == Average(Total(runs), |runs|);
    }
  }

  /** Every one of the first k runs is on the simplex. */
  lemma ScanRunsOnSimplex(m: Coeffs, dA: real, dB: real, minStep: real, k: int)
    requires minStep > 0.0 && 0 <= k <= 3
    ensures forall i :: 0 <= i < k ==> OnSimplex(ScanRuns(m, dA, dB, minStep, k)[i])
  {
    forall i | 0 <= i < k
      ensures OnSimplex(ScanRuns(m, dA, dB, minStep, k)[i])
    {
      ScanRunsAt(m, dA, dB, minStep, k, i);
      ScanRunSound(m, dA, dB, minStep, i);
    }
  }

  /** Averaging the total of simplex triples over their number keeps it on
      the simplex. */
  lemma AverageRunsOnSimplex(runs: seq<Fractions>)
    requires |runs| >= 1
    requires forall i :: 0 <= i < |runs| ==> OnSimplex(runs[i])
    ensures OnSimplex(Average(Total(runs), |runs|))
  {
    AverageOnSimplex(runs);
  }

  /** Run i of the search: permute the coefficients, scan, descend from the
      best grid point, and map (ab, ratio) back to materials (1, 2, 3). */
  method SearchRun(m: Coeffs, dA: real, dB: real, minStep: real, i: int) returns (run: Fractions)
    requires minStep > 0.0 && 0 <= i < 3
    ensures run == ScanRun(m, dA, dB, minStep, i)
  {
    var pm := Permute(m, i);
    var bestAb, bestRatio, bi, bj := CoarseScan(pm, dA, dB);
    ghost var b := Scan(GridCosts(CostOf(pm, dA, dB)));
    ScanStartOnLattice(b);
    var ab, ratio := Descend(pm, dA, dB, bestAb, bestRatio, 0.05, InitialError, minStep, ScanLattice(b));
    assert ab == RunProbe(m, dA, dB, minStep, i).ab && ratio == RunProbe(m, dA, dB, minStep, i).ratio;
    run := Reassemble(i, ab, ratio);
  }

  /** The outer `for (i = 0; i < enhanced; i++)` loop of the scan-then-descend
      solvers: the running totals tot_best_a, tot_best_b, tot_best_c. */
  method SumRuns(m: Coeffs, dA: real, dB: real, enhanced: int, minStep: real)
    returns (tot: Fractions)
    requires minStep > 0.0 && enhanced <= 3
    ensures tot == Total(ScanRuns(m, dA, dB, minStep, if enhanced < 0 then 0 else enhanced))
  {
    ghost var runs := ScanRuns(m, dA, dB, minStep, if enhanced < 0 then 0 else enhanced);
    tot := Zero();
    var i := 0;
    while i < enhanced
      invariant 0 <= i <= |runs|
      invariant tot == Total(runs[..i])
    {
      var run := SearchRun(m, dA, dB, minStep, i);
      ScanRunsAt(m, dA, dB, minStep, |runs|, i);
      TotalStep(runs, i);
      tot := Add(tot, run);
      i := i + 1;
    }
    assert runs[..i] == runs;
  }

  /** One voxel of the scan-then-descend solvers: the summed runs, divided by
      enhanced when there was more than one. */
  method SearchVoxel(m: Coeffs, dA: real, dB: real, enhanced: int, minStep: real)
    returns (f: Fractions)
    requires minStep > 0.0 && enhanced <= 3
    ensures f == SearchResult(m, dA, dB, enhanced, minStep)
  {
    f := SumRuns(m, dA, dB, enhanced, minStep);
    if enhanced > 1 {
      f := Fractions(f.a / enhanced as real, f.b / enhanced as real, f.c / enhanced as real);
    }
  }
}
