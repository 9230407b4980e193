/**
 * Shared arithmetic for the two bounded fixed-point solvers of the calculator
 * (the gross-salary estimator and the freelance gross-income solver).
 *
 * Both solvers look for a point x whose "net" value equals a target. At each
 * pass they compute the gap `target - net(x)` and move to `x + factor * gap`.
 * When net has a slope between 0.64 and 1 and the factor is 1.2 or 1.35, one
 * such pass at least halves the gap and never moves a safe iterate below
 * zero; StepHalvesGap states this once for both solvers.
 */
module FixedPoint {

  /** Math.abs */
  function Abs(x: real): (r: real)
    ensures r >= 0.0
    ensures r == x || r == -x
    ensures r < 1.0 <==> -1.0 < x < 1.0
  {
    if x < 0.0 then -x else x
  }

  /** How a bounded solver loop ended. */
  datatype Exit =
    | Converged   // the gap was within the tolerance at the top of a pass
    | Clamped     // an adjustment went below the floor; the iterate was reset and the loop left
    | Exhausted   // all passes were used up

  /** Both solvers allow at most this many adjustment passes. */
  const MaxIterations: nat := 50

  /** 2 to the power n. */
  ghost function Pow2(n: nat): (p: real)
    ensures p >= 1.0
  {
    if n == 0 then 1.0 else 2.0 * Pow2(n - 1)
  }

  lemma {:induction false} Pow2Add(a: nat, b: nat)
    ensures Pow2(a + b) == Pow2(a) * Pow2(b)
  {
    if a > 0 {
      Pow2Add(a - 1, b);
      assert Pow2(a + b) == 2.0 * Pow2(a - 1 + b);
    }
  }

  lemma Pow2At49()
    ensures Pow2(49) == 562949953421312.0
  {
    assert Pow2(10) == 1024.0 && Pow2(9) == 512.0;
    Pow2Add(10, 10);
    Pow2Add(20, 20);
    Pow2Add(40, 9);
  }

  /**
   * Net values nx at x and ny at y lie on a curve whose slope between x and
   * y is at least 0.64 and at most 1.
   */
  ghost predicate SlopeBetween(x: real, y: real, nx: real, ny: real)
  {
    if x <= y then 0.64 * (y - x) <= ny - nx <= y - x
    else 0.64 * (x - y) <= nx - ny <= x - y
  }

  /**
   * An iterate x with gap `gap` is safe when it is not negative and, if it
   * has overshot the target (negative gap), it lies at least twice the
   * size of the gap above zero.
   */
  ghost predicate Safe(x: real, gap: real)
  {
    x >= 0.0 && (gap < 0.0 ==> x >= -2.0 * gap)
  }

  /**
   * One solver pass from x, where the net value is nx, to
   * y = x + factor * (target - nx), where it is ny: the new iterate is safe
   * again (so never negative) and the gap to the target is at most half as
   * large.
   */
  lemma StepHalvesGap(target: real, factor: real, x: real, nx: real, y: real, ny: real)
    requires factor == 1.2 || factor == 1.35
    requires y == x + factor * (target - nx)
    requires Safe(x, target - nx)
    requires SlopeBetween(x, y, nx, ny)
    ensures Safe(y, target - ny)
    ensures Abs(target - ny) <= Abs(target - nx) / 2.0
  {
    if factor == 1.2 {
      assert y == x + 1.2 * (target - nx);
    } else {
      assert y == x + 1.35 * (target - nx);
    }
  }

  /**
   * A solver is on track after k passes when its iterate is safe and the
   * gap, doubled once per pass, is still within the ceiling.
   */
  ghost predicate OnTrack(target: real, x: real, nx: real, k: nat, ceiling: real)
  {
    Safe(x, target - nx) && Abs(target - nx) * Pow2(k) <= ceiling
  }

  /**
   * A pass that did not meet the tolerance keeps the solver on track, and
   * when the ceiling is below tolerance * 2^49 it cannot have been the
   * 50th pass: the gap is within the tolerance by the 50th check at the
   * latest.
   */
  lemma PassKeepsTrack(target: real, factor: real, tolerance: real, ceiling: real,
                       x: real, nx: real, y: real, ny: real, k: nat)
    requires factor == 1.2 || factor == 1.35
    requires tolerance > 0.0 && ceiling < tolerance * 562949953421312.0
    requires Abs(target - nx) >= tolerance
    requires y == x + factor * (target - nx)
    requires SlopeBetween(x, y, nx, ny)
    requires OnTrack(target, x, nx, k, ceiling)
    ensures OnTrack(target, y, ny, k + 1, ceiling)
    ensures k < 49
  {
    StepHalvesGap(target, factor, x, nx, y, ny);
    var gap, gap' := Abs(target - nx), Abs(target - ny);
    HalvingKeepsBound(gap, gap', k, ceiling);
    PassesBeforeTolerance(gap, tolerance, ceiling, k);
  }

  /**
   * A gap of at least the tolerance whose 2^k-fold is within the ceiling
   * can only occur while k < 49.
   */
  lemma PassesBeforeTolerance(gap: real, tolerance: real, ceiling: real, k: nat)
    requires tolerance > 0.0 && ceiling < tolerance * 562949953421312.0
    requires gap >= tolerance && gap * Pow2(k) <= ceiling
    ensures k < 49
  {
    if k >= 49 {
      Pow2AtLeast49(k);
      WeightedGapExceeds(gap, tolerance, ceiling, Pow2(k));
    }
  }

  lemma WeightedGapExceeds(gap: real, tolerance: real, ceiling: real, p: real)
    requires tolerance > 0.0 && ceiling < tolerance * 562949953421312.0
    requires gap >= tolerance && p >= 562949953421312.0
    ensures gap * p > ceiling
  {
    MulLeft(562949953421312.0, p, tolerance);
    MulLeft(tolerance, gap, p);
  }

  lemma Pow2AtLeast49(k: nat)
    requires k >= 49
    ensures Pow2(k) >= 562949953421312.0
  {
    Pow2Add(49, k - 49);
    Pow2At49();
    MulLeft(1.0, Pow2(k - 49), 562949953421312.0);
  }

  /**
   * Halving the gap while doubling the weight keeps a weighted bound.
   */
  lemma HalvingKeepsBound(gap: real, gap': real, k: nat, bound: real)
    requires 0.0 <= gap' <= gap / 2.0
    requires gap * Pow2(k) <= bound
    ensures gap' * Pow2(k + 1) <= bound
  {
    var p := Pow2(k);
    assert Pow2(k + 1) == 2.0 * p;
    calc {
      gap' * Pow2(k + 1);
    ==
      (2.0 * gap') * p;
    <= { MulLeft(2.0 * gap', gap, p); }
      gap * p;
    }
  }

  lemma MulLeft(a: real, b: real, p: real)
    requires a <= b && p >= 0.0
    ensures a * p <= b * p
  {
  }
}
