/** Full turns of the circle over the reals: the constant pi, the reduction of a
    raw radian value into [0, 2*pi] that Angle.normalise performs, and the
    reduction into (-pi, pi] that Angle.normalizeToPlusMinusPI performs.

    PI is abstract: the model knows only that it lies strictly between 3.14159
    and 3.14160, which is all the concrete examples below need. */
module Circle {

  type PiValue = r: real | 3.14159 < r < 3.14160 witness 3.141592

  /** Math.PI, as an otherwise unknown value within the bounds of PiValue. */
  const MathPi: PiValue

  /** The same value as a plain real, so that expressions such as -PI are
      not held to the bounds of PiValue. */
  const PI: real := MathPi

  const TwoPi: real := 2.0 * PI
  const HalfPi: real := PI / 2.0

  /** Angle.DEGREES_IN_RADIAN. */
  const DegreesInRadian: real := 180.0 / PI

  function Abs(x: real): (r: real)
    ensures r >= 0.0 && (r == x || r == -x)
  {
    if x < 0.0 then -x else x
  }

  /** k full turns, in radians: k times 2pi, built by adding or removing
      one turn at a time. */
  function Turn(k: int): (t: real)
    decreases if k >= 0 then k else -k
  {
    if k == 0 then 0.0
    else if k > 0 then Turn(k - 1) + TwoPi
    else Turn(k + 1) - TwoPi
  }

  /** a and b point the same way: they differ by a whole number of turns. */
  ghost predicate Coterminal(a: real, b: real)
  {
    exists k: int :: b == a + Turn(k)
  }

  /** Turns per radian, 1 / 2pi. */
  const PerTurn: real := 1.0 / TwoPi

  /** A bound on the number of turns to walk from x into [0, 2pi): the floor
      of |x| / 2pi, rounded away from zero below zero. */
  function TurnMeasure(x: real): nat
  {
    var q := x * PerTurn;
    if x >= 0.0 then q.Floor else -q.Floor
  }

  /** One turn down or up moves the floor of x / 2pi by one. */
  lemma FloorStep(x: real)
    ensures ((x - TwoPi) * PerTurn).Floor == (x * PerTurn).Floor - 1
    ensures ((x + TwoPi) * PerTurn).Floor == (x * PerTurn).Floor + 1
    ensures x < 0.0 ==> (x * PerTurn).Floor < 0
  {
  }

  /** The number of whole turns below x: the k with
      Turn(k) <= x < Turn(k + 1), found by walking one turn at a time. */
  function Turns(x: real): (k: int)
    decreases TurnMeasure(x)
  {
    FloorStep(x);
    if x >= TwoPi then Turns(x - TwoPi) + 1
    else if x < 0.0 then Turns(x + TwoPi) - 1
    else 0
  }

  /** Turns add up. */
  lemma {:induction false} TurnAdd(j: int, k: int)
    ensures Turn(j + k) == Turn(j) + Turn(k)
    decreases if k >= 0 then k else -k
  {
    if k > 0 {
      TurnAdd(j, k - 1);
      TurnStep(j + k - 1);
    } else if k < 0 {
      TurnAdd(j, k + 1);
      TurnStep(j + k);
    }
  }

  /** One more turn adds 2pi, whatever the sign of the count. */
  lemma TurnStep(k: int)
    ensures Turn(k + 1) == Turn(k) + TwoPi
  {
  }

  lemma TurnNegate(k: int)
    ensures Turn(-k) == -Turn(k)
  {
    TurnAdd(k, -k);
  }

  lemma TurnDifference(j: int, k: int)
    ensures Turn(j) - Turn(k) == Turn(j - k)
  {
    TurnAdd(j - k, k);
  }

  /** A positive count of turns is at least one turn. */
  lemma {:induction false} TurnPositive(k: int)
    requires k >= 1
    ensures Turn(k) >= TwoPi
  {
    if k > 1 {
      TurnPositive(k - 1);
    }
  }

  /** Whole turns are ordered as their counts are. */
  lemma TurnOrder(j: int, k: int)
    ensures j <= k <==> Turn(j) <= Turn(k)
  {
    TurnDifference(k, j);
    TurnDifference(j, k);
    if j < k {
      TurnPositive(k - j);
    } else if k < j {
      TurnPositive(j - k);
    }
  }

  /** Only the zero turn is shorter than one full turn. */
  lemma ShortTurnIsZero(k: int)
    requires -TwoPi < Turn(k) < TwoPi
    ensures k == 0
  {
    assert Turn(1) == TwoPi && Turn(-1) == -TwoPi;
    TurnOrder(1, k);
    TurnOrder(k, -1);
  }

  /** x lies in the half-open turn that starts at Turns(x) whole turns. */
  lemma {:induction false} TurnsBounds(x: real)
    ensures Turn(Turns(x)) <= x < Turn(Turns(x) + 1)
    decreases TurnMeasure(x)
  {
    FloorStep(x);
    if x >= TwoPi {
      TurnsBounds(x - TwoPi);
      TurnStep(Turns(x - TwoPi));
      TurnStep(Turns(x));
    } else if x < 0.0 {
      TurnsBounds(x + TwoPi);
      TurnStep(Turns(x));
      TurnStep(Turns(x) + 1);
    } else {
      assert Turn(1) == TwoPi;
    }
  }

  /** The turn containing x is the only one: Turns(x) is determined by the bounds. */
  lemma TurnsUnique(x: real, k: int)
    requires Turn(k) <= x < Turn(k + 1)
    ensures Turns(x) == k
  {
    TurnsBounds(x);
    TurnOrder(Turns(x) + 1, k);
    TurnOrder(k + 1, Turns(x));
  }

  /** Adding k whole turns adds k to the turn count. */
  lemma TurnsShift(x: real, k: int)
    ensures Turns(x + Turn(k)) == Turns(x) + k
  {
    var n := Turns(x);
    TurnsBounds(x);
    TurnAdd(n, k);
    TurnAdd(n + 1, k);
    TurnsUnique(x + Turn(k), n + k);
  }

  /** What Angle.normalise returns: subtract whole turns while the value
      exceeds 2pi, then add whole turns while it is negative. The result is
      in the CLOSED interval [0, 2pi]: a positive multiple of 2pi reduces to
      2pi, not to 0. */
  function Normalised(x: real): (r: real)
    ensures 0.0 <= r <= TwoPi
    ensures Coterminal(x, r)
  {
    TurnsBounds(x);
    TurnNegate(Turns(x));
    TurnAdd(1, -Turns(x));
    assert Turn(1) == TwoPi && Turn(0) == 0.0;
    var m := x - Turn(Turns(x));
    if x > TwoPi then
      if m == 0.0 then
        assert TwoPi == x + Turn(1 - Turns(x));
        TwoPi
      else
        assert m == x + Turn(-Turns(x));
        m
    else if x < 0.0 then
      assert m == x + Turn(-Turns(x));
      m
    else
      assert x == x + Turn(0);
      x
  }

  /** What Angle.normalizeToPlusMinusPI stores: the reduction into (-pi, pi]. */
  function PlusMinusPi(x: real): (r: real)
    ensures -PI < r <= PI
    ensures Coterminal(x, r)
  {
    var n := Normalised(x);
    if n > PI then
      var k :| n == x + Turn(k);
      assert n - TwoPi == x + Turn(k - 1);
      n - TwoPi
    else
      n
  }

  /** Values already in [0, 2pi] are left alone. */
  lemma NormalisedFixes(x: real)
    requires 0.0 <= x <= TwoPi
    ensures Normalised(x) == x
  {
  }

  /** Normalising twice is normalising once. */
  lemma NormalisedIdempotent(x: real)
    ensures Normalised(Normalised(x)) == Normalised(x)
  {
  }

  /** A value within one turn below zero is lifted by exactly one turn. */
  lemma NormalisedNegative(x: real)
    requires -TwoPi <= x < 0.0
    ensures Normalised(x) == x + TwoPi
  {
    assert Turn(-1) == -TwoPi && Turn(0) == 0.0;
    TurnsUnique(x, -1);
  }

  /** Adding one turn changes nothing, except at zero: normalise(0) is 0 while
      normalise(2pi) is 2pi. */
  lemma NormalisedPeriodic(x: real)
    requires x != 0.0
    ensures Normalised(x + TwoPi) == Normalised(x)
  {
    TurnsShift(x, 1);
    assert Turn(0) == 0.0 && Turn(1) == TwoPi && Turn(2) == 2.0 * TwoPi;
    if 0.0 < x < TwoPi {
      TurnsUnique(x, 0);
    } else if x == TwoPi {
      TurnsUnique(x, 1);
    } else if -TwoPi <= x < 0.0 {
      NormalisedNegative(x);
    }
  }

  lemma NormalisedAtZeroAndTwoPi()
    ensures Normalised(0.0) == 0.0
    ensures Normalised(TwoPi) == TwoPi
    ensures Normalised(0.0 + TwoPi) != Normalised(0.0)
  {
  }

  /** Normalised is THE coterminal value strictly inside (0, 2pi), when there
      is one; only multiples of a turn reduce to the end points 0 or 2pi. */
  lemma NormalisedUnique(x: real, r: real)
    requires 0.0 < r < TwoPi
    requires Coterminal(x, r)
    ensures Normalised(x) == r
  {
    var j :| r == x + Turn(j);
    var n := Normalised(x);
    var k :| n == x + Turn(k);
    TurnDifference(j, k);
    ShortTurnIsZero(j - k);
  }

  /** Multiples of a full turn: the non-positive ones reduce to 0, the
      positive ones to 2pi. */
  lemma NormalisedOfTurn(n: int)
    ensures Normalised(Turn(n)) == if n >= 1 then TwoPi else 0.0
  {
    TurnsShift(0.0, n);
    assert 0.0 + Turn(n) == Turn(n);
    assert Turns(0.0) == 0;
    assert Turn(0) == 0.0 && Turn(1) == TwoPi;
    TurnOrder(n, 0);
    TurnOrder(2, n);
  }

  /** A raw value of 3pi reduces to pi. */
  lemma NormalisedOfThreePi()
    ensures Normalised(3.0 * PI) == PI
  {
    assert 3.0 * PI == PI + TwoPi;
    NormalisedPeriodic(PI);
  }

  /** Values already in (-pi, pi] are left alone. */
  lemma PlusMinusPiFixes(x: real)
    requires -PI < x <= PI
    ensures PlusMinusPi(x) == x
  {
    if x < 0.0 {
      NormalisedNegative(x);
    }
  }

  /** Unlike Normalised, the reduction into (-pi, pi] is the unique
      coterminal value in that interval, so it has no exception at zero. */
  lemma PlusMinusPiUnique(x: real, r: real)
    requires -PI < r <= PI
    requires Coterminal(x, r)
    ensures PlusMinusPi(x) == r
  {
    var p := PlusMinusPi(x);
    var j :| r == x + Turn(j);
    var k :| p == x + Turn(k);
    TurnDifference(j, k);
    assert r - p == Turn(j - k);
    ShortTurnIsZero(j - k);
  }

  lemma PlusMinusPiPeriodic(x: real)
    ensures PlusMinusPi(x + TwoPi) == PlusMinusPi(x)
  {
    var p := PlusMinusPi(x);
    var k :| p == x + Turn(k);
    assert p == (x + TwoPi) + Turn(k - 1);
    PlusMinusPiUnique(x + TwoPi, p);
  }

  lemma PlusMinusPiIdempotent(x: real)
    ensures PlusMinusPi(PlusMinusPi(x)) == PlusMinusPi(x)
  {
    PlusMinusPiFixes(PlusMinusPi(x));
  }

  /** Degrees to the radians Angle stores: a / DEGREES_IN_RADIAN. Converting
      back multiplies by DEGREES_IN_RADIAN and yields the degrees again. */
  function ToRadians(d: real): (r: real)
    ensures r * DegreesInRadian == d
  {
    d / DegreesInRadian
  }
}
