/**
 * Angle arithmetic as the rotation engine performs it. JavaScript's `%`
 * truncates toward zero, so its remainder takes the sign of the dividend;
 * Dafny's `%` is Euclidean, so the JavaScript operator is written out here.
 */
module Angles {

  /** JavaScript's `a % 360` on a number: truncate the quotient toward zero. */
  function JsRem360(a: real): (r: real)
    ensures -360.0 < r < 360.0
    ensures a >= 0.0 ==> r >= 0.0
    ensures a <= 0.0 ==> r <= 0.0
    ensures IsWholeTurns(a - r)
  {
    var t := Truncate(a / 360.0);
    TruncatedRemainder(a, t);
    a - 360.0 * (t as real)
  }

  /** The quotient rounded toward zero. */
  function Truncate(q: real): (t: int)
    ensures q >= 0.0 ==> t as real <= q < t as real + 1.0
    ensures q < 0.0 ==> t as real - 1.0 < q <= t as real
  {
    if q >= 0.0 then q.Floor else -((-q).Floor)
  }

  lemma TruncatedRemainder(a: real, t: int)
    requires t == Truncate(a / 360.0)
    ensures -360.0 < a - 360.0 * (t as real) < 360.0
    ensures a >= 0.0 ==> a - 360.0 * (t as real) >= 0.0
    ensures a <= 0.0 ==> a - 360.0 * (t as real) <= 0.0
    ensures IsWholeTurns(360.0 * (t as real))
  {
    var q := a / 360.0;
    assert a == 360.0 * q;
    assert (360.0 * (t as real)) / 360.0 == t as real;
  }

  /** `d` is a whole number of full turns. */
  predicate IsWholeTurns(d: real) {
    (d / 360.0).Floor as real == d / 360.0
  }

  /**
   * An entity angle after the step, `(angle + degrees) % 360`: the result keeps
   * the sign of the sum and lies strictly between -360 and 360, so it is not
   * normalised into [0, 360).
   */
  function AngleAfter(angle: real, degrees: int): (r: real)
    ensures -360.0 < r < 360.0
    ensures angle + degrees as real >= 0.0 ==> r >= 0.0
    ensures angle + degrees as real <= 0.0 ==> r <= 0.0
    ensures IsWholeTurns(angle + degrees as real - r)
  {
    JsRem360(angle + degrees as real)
  }

  /** A sum already inside (-360, 360) is left as it is. */
  lemma AngleAfterSmall(angle: real, degrees: int)
    requires -360.0 < angle + degrees as real < 360.0
    ensures AngleAfter(angle, degrees) == angle + degrees as real
  {
  }

  /** A sum between one and two full turns loses one turn. */
  lemma AngleAfterOneTurn(angle: real, degrees: int)
    requires 360.0 <= angle + degrees as real < 720.0
    ensures AngleAfter(angle, degrees) == angle + degrees as real - 360.0
  {
    var a := angle + degrees as real;
    assert 1.0 <= a / 360.0 < 2.0;
    assert Truncate(a / 360.0) == 1;
  }

  /** JavaScript's `a % 360` on integers (sign of the dividend). */
  function JsRemInt360(a: int): (r: int)
    ensures -360 < r < 360
    ensures a >= 0 ==> 0 <= r
    ensures a <= 0 ==> r <= 0
    ensures (a - r) % 360 == 0
  {
    if a >= 0 then a % 360
    else
      var m := (-a) % 360;
      assert -a == 360 * ((-a) / 360) + m;
      -m
  }

  /**
   * The cumulative angle stored in a rotated image's name:
   * `(current + degrees) % 360`, plus 360 when that is negative.
   */
  function NormalizeAngle(a: int): (r: int)
    ensures 0 <= r < 360
    ensures (a - r) % 360 == 0
  {
    var m := JsRemInt360(a);
    if m < 0 then m + 360 else m
  }

  /** The normalised angle is the Euclidean residue modulo 360. */
  lemma {:induction false} NormalizeIsEuclidean(a: int)
    ensures NormalizeAngle(a) == a % 360
  {
    var r := NormalizeAngle(a);
    var k := (a - r) / 360;
    assert a == 360 * k + r;
    assert 0 <= r < 360;
  }

  /**
   * Normalising after each step or once at the end gives the same angle,
   * so the cumulative angle does not depend on the intermediate variants.
   */
  lemma {:induction false} NormalizeAccumulates(a: int, d: int)
    ensures NormalizeAngle(NormalizeAngle(a) + d) == NormalizeAngle(a + d)
  {
    NormalizeIsEuclidean(a);
    NormalizeIsEuclidean(a + d);
    NormalizeIsEuclidean(NormalizeAngle(a) + d);
    var k := a / 360;
    assert a == 360 * k + a % 360;
    ModShift(a % 360 + d, k);
  }

  lemma ModShift(b: int, k: int)
    ensures (b + 360 * k) % 360 == b % 360
  {
  }
}
