/**
 * Angle arithmetic on exact reals, in radians.
 *
 * `Normalize` models `AngleHelper.asPiMinusPiRange`, whose body is not part of
 * this model. It is defined by its contract alone: the result is the value of
 * the half-open range (-PI, PI] that names the same direction as the input,
 * that is, differs from it by a whole number of turns. Such a value exists
 * (`TurnsAbove` finds it) and is unique (`NormalizeUnique`). The specification
 * functions use `Normalize`; the executable class uses `AsPiMinusPiRange`,
 * which computes the same value.
 */
module Angles {

  /**
   * Java's `Math.PI`, written as an exact decimal. A full turn, 2 * PI, is
   * 6.283185307179586; `Turns` and `TurnsAbove` write it as a literal, so that
   * multiplying or dividing by it stays linear for the solver.
   */
  const PI: real := 3.141592653589793

  /** `k` whole turns, in radians. */
  function Turns(k: int): real {
    (k as real) * 6.283185307179586
  }

  /** `a` lies in the half-open range (-PI, PI]. */
  predicate InRange(a: real) {
    -PI < a <= PI
  }

  /** `a` and `b` name the same direction: they differ by whole turns. */
  ghost predicate SameDirection(a: real, b: real) {
    exists k: int :: a - b == Turns(k)
  }

  /** Two values of (-PI, PI] that differ by whole turns are equal. */
  lemma InRangeTurnsEqual(r: real, s: real, k: int)
    requires InRange(r) && InRange(s)
    requires r - s == Turns(k)
    ensures r == s
  {
  }

  /** At most one value of (-PI, PI] names the direction of x. */
  lemma AtMostOneInRange(x: real)
    ensures forall r, s :: InRange(r) && InRange(s) && SameDirection(x, r) && SameDirection(x, s) ==> r == s
  {
    forall r, s | InRange(r) && InRange(s) && SameDirection(x, r) && SameDirection(x, s)
      ensures r == s
    {
      var i :| x - r == Turns(i);
      var j :| x - s == Turns(j);
      assert r - s == Turns(j - i);
      InRangeTurnsEqual(r, s, j - i);
    }
  }

  /** The value of (-PI, PI] that names the direction of x; PI is kept and -PI becomes PI. */
  ghost function Normalize(x: real): (r: real)
    ensures InRange(r)
    ensures SameDirection(x, r)
  {
    var k := TurnsAbove(x);
    assert InRange(x - Turns(k)) && x - (x - Turns(k)) == Turns(k);
    var r :| InRange(r) && SameDirection(x, r);
    r
  }

  /** The smallest number of turns k with x - k * 2 * PI <= PI. */
  function TurnsAbove(x: real): (k: int)
    ensures InRange(x - Turns(k))
  {
    -((-(x - 3.141592653589793) / 6.283185307179586).Floor)
  }

  /**
   * A computable normalizer: x minus the number of turns that brings it into
   * (-PI, PI]. It is `Normalize`, so every use of it has `Normalize`'s contract.
   */
  function AsPiMinusPiRange(x: real): (r: real)
    ensures r == Normalize(x)
  {
    var k := TurnsAbove(x);
    NormalizeIs(x, x - Turns(k), k);
    x - Turns(k)
  }

  lemma SameDirectionRefl(a: real)
    ensures SameDirection(a, a)
  {
    assert a - a == Turns(0);
  }

  lemma SameDirectionTrans(a: real, b: real, c: real)
    requires SameDirection(a, b) && SameDirection(b, c)
    ensures SameDirection(a, c)
  {
    var i :| a - b == Turns(i);
    var j :| b - c == Turns(j);
    assert a - c == Turns(i + j);
  }

  /** Normalize(x) is the only value of (-PI, PI] that names the same direction as x. */
  lemma NormalizeUnique(x: real, r: real)
    requires InRange(r) && SameDirection(x, r)
    ensures r == Normalize(x)
  {
    AtMostOneInRange(x);
  }

  /** Normalize(x) == r when r lies in (-PI, PI] and x is r plus k turns. */
  lemma NormalizeIs(x: real, r: real, k: int)
    requires InRange(r) && x - r == Turns(k)
    ensures Normalize(x) == r
  {
    NormalizeUnique(x, r);
  }

  /** Normalize only depends on the direction its input names. */
  lemma NormalizeSameDirection(x: real, y: real)
    requires SameDirection(x, y)
    ensures Normalize(x) == Normalize(y)
  {
    SameDirectionTrans(x, y, Normalize(y));
    NormalizeUnique(x, Normalize(y));
  }

  /** Values already in (-PI, PI] are left as they are. */
  lemma NormalizeFixesInRange(x: real)
    requires InRange(x)
    ensures Normalize(x) == x
  {
    SameDirectionRefl(x);
    NormalizeUnique(x, x);
  }

  /** Normalizing twice is normalizing once. */
  lemma NormalizeIdempotent(x: real)
    ensures Normalize(Normalize(x)) == Normalize(x)
  {
    NormalizeFixesInRange(Normalize(x));
  }

  /** The boundary: PI is kept and -PI wraps to +PI. */
  lemma NormalizeBoundary()
    ensures Normalize(PI) == PI
    ensures Normalize(-PI) == PI
  {
    NormalizeIs(PI, PI, 0);
    NormalizeIs(-PI, PI, -1);
  }

  /** Normalizing an operand of a sum does not change the normalized sum. */
  lemma NormalizeInnerAdd(x: real, y: real)
    ensures Normalize(Normalize(x) + y) == Normalize(x + y)
  {
    var k :| x - Normalize(x) == Turns(k);
    assert (Normalize(x) + y) - (x + y) == Turns(-k);
    NormalizeSameDirection(Normalize(x) + y, x + y);
  }

  /** Normalizing the minuend of a difference does not change the normalized difference. */
  lemma NormalizeOuterSub(x: real, y: real)
    ensures Normalize(Normalize(x) - y) == Normalize(x - y)
  {
    NormalizeInnerAdd(x, -y);
    assert Normalize(x) + -y == Normalize(x) - y;
    assert x + -y == x - y;
  }
}
