/**
  Angle arithmetic used by the simulation's time step: the constant pi,
  truncating floating-point remainder (the contract of `std::fmod`) and the
  reduction of an angle into the half-open turn [0, 2*pi).
  Doubles are modelled by exact reals.
 */
module Angles {

  /** `kPi`, the value of pi the simulation is compiled with. */
  const Pi: real := 3.14159265358979323846

  /** One full turn, `2.0 * kPi`. */
  const TwoPi: real := 2.0 * Pi

  /** Rounds toward zero, as the quotient inside `std::fmod` does. */
  function Trunc(x: real): (t: int)
    ensures x >= 0.0 ==> 0.0 <= t as real <= x < t as real + 1.0
    ensures x < 0.0 ==> t as real - 1.0 < x <= t as real <= 0.0
  {
    if x >= 0.0 then x.Floor else -((-x).Floor)
  }

  /** `k` whole turns of length `m`. */
  function Turns(k: int, m: real): real
  {
    k as real * m
  }

  /** `a` and `b` differ by a whole number of turns of length `m`. */
  ghost predicate Congruent(a: real, b: real, m: real)
  {
    exists k: int :: a == b + Turns(k, m)
  }

  /** `a` and `b` denote the same direction. */
  ghost predicate SameAngle(a: real, b: real)
  {
    Congruent(a, b, TwoPi)
  }

  /** A direction in the half-open turn [0, 2*pi). */
  predicate InTurn(a: real)
  {
    0.0 <= a < TwoPi
  }

  /** Scaling by a positive `m` maps [0, 1) into [0, m). */
  lemma ScaleFraction(m: real, s: real)
    requires m > 0.0 && 0.0 <= s < 1.0
    ensures 0.0 <= m * s < m
  {
  }

  /** Scaling by a positive `m` keeps the sign. */
  lemma ScaleSign(m: real, q: real)
    requires m > 0.0
    ensures q < 0.0 <==> m * q < 0.0
  {
  }

  /**
    `std::fmod(x, m)`: the remainder of `x / m` with the quotient truncated
    toward zero. It has the sign of `x`, is smaller than `m` in magnitude and
    differs from `x` by a whole number of `m`.
   */
  function FMod(x: real, m: real): (r: real)
    requires m > 0.0
    ensures x >= 0.0 ==> 0.0 <= r < m
    ensures x < 0.0 ==> -m < r <= 0.0
    ensures Congruent(r, x, m)
  {
    var q := x / m;
    var k := Trunc(q);
    ScaleSign(m, q);
    if x >= 0.0 then
      RemainderUp(x, m, q, k as real);
      assert x - m * k as real == x + Turns(-k, m);
      x - m * k as real
    else
      RemainderDown(x, m, q, k as real);
      assert x - m * k as real == x + Turns(-k, m);
      x - m * k as real
  }

  /** A quotient rounded down leaves a remainder in [0, m). */
  lemma RemainderUp(x: real, m: real, q: real, t: real)
    requires m > 0.0 && m * q == x && t <= q < t + 1.0
    ensures 0.0 <= x - m * t < m
  {
    var s := q - t;
    ScaleFraction(m, s);
    assert m * s == m * q - m * t;
    assert x - m * t == m * s;
  }

  /** A quotient rounded up leaves a remainder in (-m, 0]. */
  lemma RemainderDown(x: real, m: real, q: real, t: real)
    requires m > 0.0 && m * q == x && t - 1.0 < q <= t
    ensures -m < x - m * t <= 0.0
  {
    var s := t - q;
    ScaleFraction(m, s);
    assert m * s == m * t - m * q;
    assert x - m * t == -(m * s);
  }

  /**
    The angle update of the time step: the truncating remainder modulo 2*pi,
    moved up by one turn when it is negative.
   */
  function Normalize(x: real): (r: real)
    ensures InTurn(r)
    ensures SameAngle(r, x)
  {
    var f := FMod(x, TwoPi);
    if f < 0.0 then
      OneMoreTurn(f, x);
      f + TwoPi
    else
      f
  }

  /** Adding a whole turn keeps the direction. */
  lemma OneMoreTurn(a: real, b: real)
    requires SameAngle(a, b)
    ensures SameAngle(a + TwoPi, b)
  {
    var k :| a == b + Turns(k, TwoPi);
    assert a + TwoPi == b + Turns(k + 1, TwoPi);
  }

  /** Two directions in the same turn that are congruent are equal. */
  lemma CongruentInTurn(a: real, b: real)
    requires InTurn(a) && InTurn(b) && SameAngle(a, b)
    ensures a == b
  {
    var k :| a == b + Turns(k, TwoPi);
    if k > 0 {
      assert false;
    } else if k < 0 {
      assert false;
    }
  }

  /**
    The direction of `x`: the angle in [0, 2*pi) that is congruent to `x`.
    It is characterised by that property alone; `NormalizeIsDirection`
    shows the time step's formula computes it.
   */
  ghost function Direction(x: real): (r: real)
    ensures InTurn(r) && SameAngle(r, x)
  {
    assert InTurn(Normalize(x)) && SameAngle(Normalize(x), x);
    var r :| InTurn(r) && SameAngle(r, x);
    r
  }

  /** Any angle in [0, 2*pi) congruent to `x` is the direction of `x`. */
  lemma DirectionUnique(x: real, y: real)
    requires InTurn(y) && SameAngle(y, x)
    ensures y == Direction(x)
  {
    var r := Direction(x);
    var k :| y == x + Turns(k, TwoPi);
    var l :| r == x + Turns(l, TwoPi);
    assert y == r + Turns(k - l, TwoPi);
    CongruentInTurn(y, r);
  }

  /** The truncating-remainder formula of the time step yields the direction. */
  lemma NormalizeIsDirection(x: real)
    ensures Normalize(x) == Direction(x)
  {
    DirectionUnique(x, Normalize(x));
  }

  /** An angle already in [0, 2*pi) is its own direction. */
  lemma DirectionInTurn(a: real)
    requires InTurn(a)
    ensures Direction(a) == a
  {
    assert a == a + Turns(0, TwoPi);
    DirectionUnique(a, a);
  }

  /** Turning the direction of `x` by `d` gives the direction of `x + d`. */
  lemma DirectionShift(x: real, d: real)
    ensures Direction(Direction(x) + d) == Direction(x + d)
  {
    var n := Direction(x);
    var k :| n == x + Turns(k, TwoPi);
    var r := Direction(n + d);
    var l :| r == n + d + Turns(l, TwoPi);
    assert r == x + d + Turns(k + l, TwoPi);
    DirectionUnique(x + d, r);
  }
}
