/** Angle arithmetic of the servo: wrapping an angle into [0, 2*pi) and
    folding the difference of two wrapped angles into a position error.

    Floating point is abstracted as `real`. `Pi` is the exact value of the
    double `M_PI`; `2 * M_PI` is exact in double arithmetic, so `TwoPi` is
    exactly twice it. */
module Angles {

  const Pi: real := 3.141592653589793115997963468544185161590576171875
  const TwoPi: real := 2.0 * Pi

  /** The 1e-8 tolerance used by both snapping rules. */
  const SnapTol: real := 0.00000001

  function Abs(x: real): (r: real)
    ensures r >= 0.0
    ensures r == x || r == -x
  {
    if x < 0.0 then -x else x
  }

  /** `std::copysign(m, s)`: the magnitude of `m` with the sign of `s`.
      Reals have no signed zero, so a zero `s` counts as positive. */
  function CopySign(m: real, s: real): (r: real)
    ensures Abs(r) == Abs(m)
    ensures s >= 0.0 ==> r >= 0.0
    ensures s < 0.0 ==> r <= 0.0
  {
    if s >= 0.0 then Abs(m) else -Abs(m)
  }

  /** Whole turns contained in a non-negative magnitude. */
  function Turns(m: real): (k: int)
    requires m >= 0.0
    ensures k >= 0
    ensures k as real * TwoPi <= m < (k + 1) as real * TwoPi
  {
    (m / TwoPi).Floor
  }

  /** `std::fmod(m, 2 * M_PI)` for a non-negative `m`: what is left after
      removing every whole turn. */
  function FmodTwoPi(m: real): (r: real)
    requires m >= 0.0
    ensures 0.0 <= r < TwoPi
    ensures r <= m
    ensures r == m - Turns(m) as real * TwoPi
  {
    m - Turns(m) as real * TwoPi
  }

  /** Reference definition: the mathematical remainder of `x` modulo 2*pi,
      rounding the quotient towards minus infinity, for every real `x`. */
  function FloorMod(x: real): (r: real)
    ensures 0.0 <= r < TwoPi
  {
    x - (x / TwoPi).Floor as real * TwoPi
  }

  /** True when `NormalizeAngle` replaces its remainder by 0 because it lies
      within the tolerance of 2*pi. Only a non-negative input can snap: for a
      negative input the signed remainder is at or below zero, far from 2*pi. */
  predicate Snaps(x: real) {
    x >= 0.0 && TwoPi - FloorMod(x) < SnapTol
  }

  /** `NormalizeAngle`: the remainder of |x| modulo 2*pi, given the sign of
      `x`, snapped to 0 near 2*pi, and shifted up by 2*pi when negative. */
  function NormalizeAngle(x: real): (r: real)
    ensures 0.0 <= r < TwoPi
  {
    var wrapped := CopySign(FmodTwoPi(Abs(x)), x);
    var snapped := if Abs(wrapped - TwoPi) < SnapTol then 0.0 else wrapped;
    if snapped < 0.0 then snapped + TwoPi else snapped
  }

  /** For every real number, the floor of its negation. */
  lemma {:induction false} FloorOfNegation(q: real)
    ensures q.Floor as real == q ==> (-q).Floor == -q.Floor
    ensures q.Floor as real != q ==> (-q).Floor == -q.Floor - 1
  {
  }

  /** `NormalizeAngle` agrees with the mathematical remainder modulo 2*pi,
      except exactly where it snaps, and then it yields 0. */
  lemma {:induction false} NormalizeIsFloorMod(x: real)
    ensures NormalizeAngle(x) == if Snaps(x) then 0.0 else FloorMod(x)
  {
    if x >= 0.0 {
      assert FmodTwoPi(Abs(x)) == FloorMod(x);
    } else {
      var m := -x;
      var q := m / TwoPi;
      FloorOfNegation(q);
      assert x / TwoPi == -q;
      var f := FmodTwoPi(m);
      assert f == m - q.Floor as real * TwoPi;
      if q.Floor as real == q {
        assert f == 0.0;
        assert FloorMod(x) == 0.0;
      } else {
        assert f > 0.0;
        assert FloorMod(x) == TwoPi - f;
      }
    }
  }

  /** Angles already in [0, 2*pi) and at least the tolerance below 2*pi are
      left unchanged. */
  lemma NormalizeFixedPoint(y: real)
    requires 0.0 <= y < TwoPi
    requires TwoPi - y >= SnapTol
    ensures NormalizeAngle(y) == y
  {
    assert Turns(y) == 0;
  }

  /** A non-negative angle whose remainder lies within the tolerance of 2*pi
      normalises to exactly 0. */
  lemma NormalizeSeam(y: real)
    requires y >= 0.0
    requires Abs(FmodTwoPi(y) - TwoPi) < SnapTol
    ensures NormalizeAngle(y) == 0.0
  {
  }

  /** Adding whole turns does not change the normalisation of a non-negative
      angle. */
  lemma {:induction false} NormalizePeriodicOnNonNegative(x: real, k: nat)
    requires x >= 0.0
    ensures NormalizeAngle(x + k as real * TwoPi) == NormalizeAngle(x)
  {
    var y := x + k as real * TwoPi;
    assert y / TwoPi == x / TwoPi + k as real;
    assert (y / TwoPi).Floor == (x / TwoPi).Floor + k;
    assert FloorMod(y) == FloorMod(x);
    NormalizeIsFloorMod(x);
    NormalizeIsFloorMod(y);
  }

  /** Normalising a normalised angle again is the identity, unless the
      normalised angle lies within the tolerance of 2*pi. */
  lemma NormalizeIdempotentAwayFromSeam(x: real)
    requires TwoPi - NormalizeAngle(x) >= SnapTol
    ensures NormalizeAngle(NormalizeAngle(x)) == NormalizeAngle(x)
  {
    NormalizeFixedPoint(NormalizeAngle(x));
  }

  /** The snap breaks idempotence: a tiny negative angle normalises to just
      below 2*pi, and normalising that again snaps it to 0. */
  lemma NormalizeNotIdempotent()
    ensures NormalizeAngle(-SnapTol / 2.0) == TwoPi - SnapTol / 2.0
    ensures NormalizeAngle(NormalizeAngle(-SnapTol / 2.0)) == 0.0
  {
    assert Turns(SnapTol / 2.0) == 0;
    assert Turns(TwoPi - SnapTol / 2.0) == 0;
  }

  /** The snap breaks periodicity for negative angles: one more turn moves a
      tiny negative angle from just below 2*pi to 0. */
  lemma NormalizeNotPeriodic()
    ensures NormalizeAngle(-SnapTol / 2.0) != NormalizeAngle(-SnapTol / 2.0 + TwoPi)
  {
    NormalizeNotIdempotent();
  }

  /** The position error of the servo as the code computes it: the
      difference of the two normalised angles, reduced by one turn when it
      exceeds pi, then snapped to pi within the tolerance. A difference at
      least the tolerance below pi is kept, one within it of pi becomes pi,
      and one above pi loses a turn. Only the positive side is folded, so the
      error can reach down to just above -2*pi; it is never above pi, and it
      equals the raw difference modulo 2*pi up to the snap. */
  function PositionError(measured: real, reference: real): (err: real)
    ensures -TwoPi < err <= Pi
    ensures var d := NormalizeAngle(measured) - NormalizeAngle(reference);
      Abs(err - d) < SnapTol || Abs(err - (d - TwoPi)) < SnapTol
    ensures NormalizeAngle(measured) == NormalizeAngle(reference) ==> err == 0.0
    ensures var d := NormalizeAngle(measured) - NormalizeAngle(reference);
      d <= Pi - SnapTol ==> err == d
    ensures var d := NormalizeAngle(measured) - NormalizeAngle(reference);
      Pi - SnapTol < d <= Pi ==> err == Pi
    ensures var d := NormalizeAngle(measured) - NormalizeAngle(reference);
      d > Pi ==> err == d - TwoPi
  {
    var d := NormalizeAngle(measured) - NormalizeAngle(reference);
    var folded := if d > Pi then d - TwoPi else d;
    if Abs(folded - Pi) < SnapTol then Pi else folded
  }

  /** The interval [-pi, pi) announced for the position error is not met:
      a measured angle of 0.1 and a reference of 6.2 (close to one turn)
      give an error of -6.1, nearly a full turn the long way round. */
  lemma PositionErrorBelowMinusPi()
    ensures PositionError(0.1, 6.2) == 0.1 - 6.2
    ensures PositionError(0.1, 6.2) < -Pi
  {
    NormalizeFixedPoint(0.1);
    NormalizeFixedPoint(6.2);
  }

  /** The evidently intended position error: the signed shortest angular
      displacement, folded on both sides into (-pi, pi], with the same snap
      to pi within the tolerance. */
  function ShortestPositionError(measured: real, reference: real): (err: real)
    ensures -Pi < err <= Pi
    ensures var d := NormalizeAngle(measured) - NormalizeAngle(reference);
      Abs(err - d) < SnapTol || Abs(err - (d - TwoPi)) < SnapTol
      || Abs(err - (d + TwoPi)) < SnapTol
    ensures NormalizeAngle(measured) == NormalizeAngle(reference) ==> err == 0.0
    ensures var d := NormalizeAngle(measured) - NormalizeAngle(reference);
      -Pi < d <= Pi - SnapTol ==> err == d
    ensures var d := NormalizeAngle(measured) - NormalizeAngle(reference);
      Pi - SnapTol < d <= Pi ==> err == Pi
    ensures var d := NormalizeAngle(measured) - NormalizeAngle(reference);
      d > Pi ==> err == d - TwoPi
    ensures var d := NormalizeAngle(measured) - NormalizeAngle(reference);
      -Pi - SnapTol < d <= -Pi ==> err == Pi
    ensures var d := NormalizeAngle(measured) - NormalizeAngle(reference);
      d <= -Pi - SnapTol ==> err == d + TwoPi
  {
    var d := NormalizeAngle(measured) - NormalizeAngle(reference);
    var folded := if d > Pi then d - TwoPi else if d <= -Pi then d + TwoPi else d;
    if Abs(folded - Pi) < SnapTol then Pi else folded
  }

  /** The corrected error is never longer than the one the code computes,
      and the two agree whenever the code's error is already in (-pi, pi]. */
  lemma {:induction false} ShortestNeverLonger(measured: real, reference: real)
    ensures Abs(ShortestPositionError(measured, reference)) <= Abs(PositionError(measured, reference))
    ensures PositionError(measured, reference) > -Pi ==>
      ShortestPositionError(measured, reference) == PositionError(measured, reference)
  {
  }

  /** On the wrap-around example the corrected error is the short way round,
      one turn above the code's error. */
  lemma ShortestPositionErrorWraps()
    ensures ShortestPositionError(0.1, 6.2) == 0.1 - 6.2 + TwoPi
    ensures 0.0 < ShortestPositionError(0.1, 6.2) < 0.2
  {
    NormalizeFixedPoint(0.1);
    NormalizeFixedPoint(6.2);
  }
}
