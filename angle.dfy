/** The Angle value type of org.xmlcml.euclid: a raw radian value with a range
    policy that governs how it is read and a display unit used for formatting.
    The raw value is never reduced except by the explicit normalisers (and by
    the right-angle test, which calls one of them). */
module Euclid {
  import opened Circle

  datatype Units = Degrees | Radians

  /** How the raw value is projected when it is read. */
  datatype Range =
    | Unlimited  // any value
    | Unsigned   // 0 to 2pi
    | Signed     // -pi to pi

  datatype Option<T> = None | Some(value: T)

  class Angle {
    /** Always held as radians. */
    var angle: real
    var range: Range
    /** The display unit; the field is called `type` in the class. */
    var units: Units

    /** The default angle: 0.0, UNLIMITED, RADIANS. */
    constructor ()
      ensures angle == 0.0 && range == Unlimited && units == Radians
    {
      angle, range, units := 0.0, Unlimited, Radians;
    }

    /** An angle in radians, with the default flags. */
    constructor FromRadians(a: real)
      ensures angle == a && range == Unlimited && units == Radians
    {
      angle, range, units := a, Unlimited, Radians;
    }

    /** An angle given in degrees or in radians. The unit chosen only converts
        the input: the display unit stays RADIANS. */
    constructor FromUnits(a: real, u: Units)
      ensures angle == (if u == Radians then a else ToRadians(a))
      ensures range == Unlimited && units == Radians
    {
      angle := if u == Radians then a else a / DegreesInRadian;
      range, units := Unlimited, Radians;
    }

    /** The copy constructor. */
    constructor Copy(a: Angle)
      ensures angle == a.angle && range == a.range && units == a.units
    {
      angle, range, units := a.angle, a.range, a.units;
    }

    method ShallowCopy(a: Angle)
      modifies this
      ensures angle == old(a.angle) && range == old(a.range) && units == old(a.units)
    {
      range := a.range;
      units := a.units;
      angle := a.angle;
    }

    /** A fresh angle holding the sum; neither operand's flags are carried over. */
    method Plus(a2: Angle) returns (r: Angle)
      ensures fresh(r)
      ensures r.angle == angle + a2.angle && r.range == Unlimited && r.units == Radians
    {
      r := new Angle.FromRadians(angle + a2.angle);
    }

    /** A fresh angle holding the difference, with the default flags. */
    method Subtract(a2: Angle) returns (r: Angle)
      ensures fresh(r)
      ensures r.angle == angle - a2.angle && r.range == Unlimited && r.units == Radians
    {
      r := new Angle.FromRadians(angle - a2.angle);
    }

    /** A fresh angle holding the product with a scalar, with the default flags. */
    method MultiplyBy(f: real) returns (r: Angle)
      ensures fresh(r)
      ensures r.angle == angle * f && r.range == Unlimited && r.units == Radians
    {
      r := new Angle.FromRadians(angle * f);
    }

    /** The static normaliser: subtract whole turns while the value exceeds
        2pi, then add whole turns while it is negative. The result lies in the
        closed interval [0, 2pi] and points the same way as the input. */
    static method Normalise(x: real) returns (r: real)
      ensures r == Normalised(x)
      ensures 0.0 <= r <= TwoPi && Coterminal(x, r)
    {
      r := x;
      while r > TwoPi
        invariant Normalised(r) == Normalised(x)
        decreases TurnMeasure(r)
      {
        FloorStep(r);
        NormalisedPeriodic(r - TwoPi);
        r := r - TwoPi;
      }
      while r < 0.0
        invariant r <= TwoPi
        invariant Normalised(r) == Normalised(x)
        decreases TurnMeasure(r)
      {
        FloorStep(r);
        NormalisedPeriodic(r);
        r := r + TwoPi;
      }
    }

    /** Rewrites the raw value into (-pi, pi], keeping its direction. */
    method NormalizeToPlusMinusPI()
      modifies this
      ensures angle == PlusMinusPi(old(angle))
      ensures -PI < angle <= PI && Coterminal(old(angle), angle)
      ensures range == old(range) && units == old(units)
    {
      angle := Normalise(angle);
      if angle > PI {
        angle := angle - 2.0 * PI;
      }
    }

    /** Rewrites the raw value into [0, 2pi], keeping its direction. */
    method NormalizeTo2Pi()
      modifies this
      ensures angle == Normalised(old(angle))
      ensures 0.0 <= angle <= TwoPi && Coterminal(old(angle), angle)
      ensures range == old(range) && units == old(units)
    {
      angle := Normalise(angle);
    }

    /** The private projection that every reader applies to the raw value:
        unchanged under UNLIMITED, normalised under UNSIGNED, and under SIGNED
        normalised and then brought into (-pi, pi] by SignedShift. Since a
        normalised value is never below -pi, a SIGNED reading is exactly what
        NormalizeToPlusMinusPI would store. */
    function Adjust(a: real): (r: real)
      reads this
      ensures range == Unlimited ==> r == a
      ensures range == Unsigned ==> r == Normalised(a) && 0.0 <= r <= TwoPi
      ensures range == Signed ==> r == PlusMinusPi(a) && -PI < r <= PI
    {
      if range == Unlimited then
        a
      else
        var temp := Normalised(a);
        if range == Unsigned then temp else SignedShift(temp)
    }

    /** The angle in radians, projected by the range policy. */
    function GetRadian(): (r: real)
      reads this
      ensures range == Unlimited ==> r == angle
      ensures range == Unsigned ==> r == Normalised(angle) && 0.0 <= r <= TwoPi
      ensures range == Signed ==> r == PlusMinusPi(angle) && -PI < r <= PI
    {
      Adjust(angle)
    }

    /** Identical to GetRadian. */
    function GetAngle(): (r: real)
      reads this
      ensures r == GetRadian()
    {
      Adjust(angle)
    }

    /** The projected angle in degrees: the GetRadian reading converted to
        degrees. Under UNLIMITED converting it back gives the raw value,
        under UNSIGNED it lies in [0, 360] and under SIGNED in (-180, 180]. */
    function GetDegrees(): (r: real)
      reads this
      ensures ToRadians(r) == GetRadian()
      ensures range == Unlimited ==> ToRadians(r) == angle
      ensures range == Unsigned ==> 0.0 <= r <= 360.0
      ensures range == Signed ==> -180.0 < r <= 180.0
    {
      var rad := Adjust(angle);
      DegreesBounds(rad);
      rad * DegreesInRadian
    }

    /** Stores a value given in degrees, bypassing the range policy. */
    method PutDegrees(a: real)
      modifies this
      ensures angle == ToRadians(a)
      ensures range == old(range) && units == old(units)
    {
      angle := a / DegreesInRadian;
    }

    /** Changes the range policy only; the raw value is not renormalised. */
    method SetRange(r: Range)
      modifies this
      ensures range == r
      ensures angle == old(angle) && units == old(units)
    {
      range := r;
    }

    /** The right-angle test: Some(1) for pi/2, Some(-1) for -pi/2, Some(0)
        otherwise, None when no tolerance is given. The tolerance is read
        before the receiver is normalised into (-pi, pi], and the receiver is
        then read through its own range policy. */
    method GetRightAngle(eps: Angle?) returns (rt: Option<int>)
      modifies this
      ensures eps == null ==> rt == None && unchanged(this)
      ensures eps != null ==>
        angle == PlusMinusPi(old(angle)) && -PI < angle <= PI &&
        range == old(range) && units == old(units)
      ensures eps != null ==> rt.Some? && rt.value in {-1, 0, 1}
      ensures eps != null ==>
        (rt.value == 1 <==> Abs(HalfPi - GetRadian()) < old(Abs(eps.GetRadian())))
      ensures eps != null ==>
        (rt.value == -1 <==>
          !(Abs(HalfPi - GetRadian()) < old(Abs(eps.GetRadian()))) &&
          Abs(-HalfPi - GetRadian()) < old(Abs(eps.GetRadian())))
    {
      if eps == null {
        return None;
      }
      var absEps := Abs(eps.GetRadian());
      NormalizeToPlusMinusPI();
      var code := 0;
      if Abs(PI / 2.0 - GetRadian()) < absEps {
        code := 1;
      } else if Abs(-PI / 2.0 - GetRadian()) < absEps {
        code := -1;
      }
      rt := Some(code);
    }

    /** The comparisons put both raw values through normalise and compare
        the results; on values already in [0, 2pi] that is plain numeric
        order. A strict comparison is the negation of the opposite non-strict
        one. */
    function GreaterThan(a: real): (r: bool)
      reads this
      ensures r <==> !LessThanOrEquals(a)
      ensures 0.0 <= angle <= TwoPi && 0.0 <= a <= TwoPi ==> (r <==> angle > a)
    {
      Normalised(angle) > Normalised(a)
    }

    function GreaterThanOrEquals(a: real): (r: bool)
      reads this
      ensures Normalised(a) == Normalised(angle) ==> r
      ensures 0.0 <= angle <= TwoPi && 0.0 <= a <= TwoPi ==> (r <==> angle >= a)
    {
      Normalised(angle) >= Normalised(a)
    }

    function LessThan(a: real): (r: bool)
      reads this
      ensures r <==> !GreaterThanOrEquals(a)
      ensures 0.0 <= angle <= TwoPi && 0.0 <= a <= TwoPi ==> (r <==> angle < a)
    {
      Normalised(angle) < Normalised(a)
    }

    function LessThanOrEquals(a: real): (r: bool)
      reads this
      ensures Normalised(a) == Normalised(angle) ==> r
      ensures 0.0 <= angle <= TwoPi && 0.0 <= a <= TwoPi ==> (r <==> angle <= a)
    {
      Normalised(angle) <= Normalised(a)
    }

    /** The overloads taking an Angle compare against its raw value, so the
        argument's range policy plays no part. */
    function GreaterThanAngle(a: Angle): (r: bool)
      reads this, a
      ensures r <==> !LessThanOrEqualsAngle(a)
      ensures 0.0 <= angle <= TwoPi && 0.0 <= a.angle <= TwoPi ==> (r <==> angle > a.angle)
    {
      GreaterThan(a.angle)
    }

    function GreaterThanOrEqualsAngle(a: Angle): (r: bool)
      reads this, a
      ensures Normalised(a.angle) == Normalised(angle) ==> r
      ensures 0.0 <= angle <= TwoPi && 0.0 <= a.angle <= TwoPi ==> (r <==> angle >= a.angle)
    {
      GreaterThanOrEquals(a.angle)
    }

    function LessThanAngle(a: Angle): (r: bool)
      reads this, a
      ensures r <==> !GreaterThanOrEqualsAngle(a)
      ensures 0.0 <= angle <= TwoPi && 0.0 <= a.angle <= TwoPi ==> (r <==> angle < a.angle)
    {
      LessThan(a.angle)
    }

    function LessThanOrEqualsAngle(a: Angle): (r: bool)
      reads this, a
      ensures Normalised(a.angle) == Normalised(angle) ==> r
      ensures 0.0 <= angle <= TwoPi && 0.0 <= a.angle <= TwoPi ==> (r <==> angle <= a.angle)
    {
      LessThanOrEquals(a.angle)
    }
  }

  /** The last step of the SIGNED projection: one turn down when above pi,
      one turn up when below -pi. Adjust applies it to normalised values only,
      for which the second branch is never taken. */
  function SignedShift(temp: real): (r: real)
  {
    if temp > PI then temp - 2.0 * PI
    else if temp < -PI then temp + 2.0 * PI
    else temp
  }

  /** Dividing by pi keeps bounds that are stated in multiples of pi. */
  lemma DivideByPi(x: real, c: real)
    ensures x <= c * PI <==> x / PI <= c
    ensures x < c * PI <==> x / PI < c
  {
  }

  /** Degree bounds of the projected ranges. */
  lemma DegreesBounds(rad: real)
    ensures 0.0 <= rad <= TwoPi ==> 0.0 <= rad * DegreesInRadian <= 360.0
    ensures -PI < rad <= PI ==> -180.0 < rad * DegreesInRadian <= 180.0
  {
    assert rad * DegreesInRadian == (rad / PI) * 180.0;
    DivideByPi(rad, 2.0);
    DivideByPi(rad, 1.0);
    DivideByPi(-rad, 1.0);
    DivideByPi(-rad, 0.0);
    assert (-rad) / PI == -(rad / PI);
  }

  /** The Angle overloads compare raw values only: neither object's range
      policy (nor its display unit) takes part. */
  lemma AngleComparisonsIgnoreRange(s: Angle, a: Angle, t: Angle, b: Angle)
    requires s.angle == t.angle && a.angle == b.angle
    ensures s.GreaterThanAngle(a) == t.GreaterThan(b.angle)
    ensures s.GreaterThanOrEqualsAngle(a) == t.GreaterThanOrEquals(b.angle)
    ensures s.LessThanAngle(a) == t.LessThan(b.angle)
    ensures s.LessThanOrEqualsAngle(a) == t.LessThanOrEquals(b.angle)
  {
  }

  /** Comparing against a value one turn further gives neither greater nor
      less, except from zero: 0 normalises to 0 but 2pi to 2pi. */
  lemma ComparisonFullTurn(s: Angle, x: real)
    requires s.angle == x
    ensures x != 0.0 ==> !s.GreaterThan(x + TwoPi) && !s.LessThan(x + TwoPi)
    ensures x == 0.0 ==> s.LessThan(x + TwoPi)
  {
    if x != 0.0 {
      NormalisedPeriodic(x);
    }
  }

  /** Arguments pointing the same way compare alike, as long as they do not
      point along the positive x-axis (whose multiples reduce to 0 or 2pi). */
  lemma ComparisonsCoterminal(s: Angle, a: real, b: real)
    requires Coterminal(a, b)
    requires 0.0 < Normalised(a) < TwoPi
    ensures s.GreaterThan(a) == s.GreaterThan(b)
    ensures s.GreaterThanOrEquals(a) == s.GreaterThanOrEquals(b)
    ensures s.LessThan(a) == s.LessThan(b)
    ensures s.LessThanOrEquals(a) == s.LessThanOrEquals(b)
  {
    var j :| b == a + Turn(j);
    var n := Normalised(a);
    var k :| n == a + Turn(k);
    TurnDifference(k, j);
    assert n == b + Turn(k - j);
    NormalisedUnique(b, n);
  }

  /** The receiver side of the same fact: receivers that differ by whole
      turns, and do not normalise to 0 or 2pi, answer every comparison alike,
      whatever their range policy. */
  lemma ReceiversCoterminal(s: Angle, t: Angle, a: real)
    requires Coterminal(s.angle, t.angle)
    requires 0.0 < Normalised(s.angle) < TwoPi
    ensures s.GreaterThan(a) == t.GreaterThan(a)
    ensures s.GreaterThanOrEquals(a) == t.GreaterThanOrEquals(a)
    ensures s.LessThan(a) == t.LessThan(a)
    ensures s.LessThanOrEquals(a) == t.LessThanOrEquals(a)
  {
    var k :| t.angle == s.angle + Turn(k);
    var n := Normalised(s.angle);
    var j :| n == s.angle + Turn(j);
    TurnDifference(j, k);
    assert n == t.angle + Turn(j - k);
    NormalisedUnique(t.angle, n);
  }

  /** What the right-angle test compares after normalising the receiver into
      (-pi, pi]: the value itself under UNLIMITED or SIGNED, but under
      UNSIGNED a negative value reads one turn higher, so it is never within
      a small tolerance of -pi/2. */
  lemma ReadingAfterPlusMinusPi(s: Angle)
    requires -PI < s.angle <= PI
    ensures s.range != Unsigned ==> s.GetRadian() == s.angle
    ensures s.range == Unsigned && s.angle < 0.0 ==> s.GetRadian() == s.angle + TwoPi
  {
    PlusMinusPiFixes(s.angle);
    if s.angle < 0.0 {
      NormalisedNegative(s.angle);
    }
  }

  /** Degrees stored by PutDegrees or by the DEGREES constructor read back
      unchanged under the UNLIMITED range. */
  lemma DegreesRoundTrip(s: Angle, d: real)
    requires s.range == Unlimited && s.angle == ToRadians(d)
    ensures s.GetDegrees() == d
  {
  }

  /** Readings of the raw values 3pi and -0.5 under the two bounded ranges. */
  lemma RangeReadingExamples(s: Angle)
    ensures s.angle == 3.0 * PI && s.range == Signed ==> s.GetRadian() == PI
    ensures s.angle == 3.0 * PI && s.range == Unsigned ==> s.GetRadian() == PI
    ensures s.angle == -0.5 && s.range == Unsigned ==> s.GetRadian() == TwoPi - 0.5
  {
    NormalisedOfThreePi();
    NormalisedNegative(-0.5);
  }

  /** A client of the right-angle test: what its contract lets a caller
      conclude for a tolerance of 0.01 radians, and for no tolerance. */
  method RightAngleExamples(target: real, withEps: bool) returns (r: Option<int>)
    ensures !withEps ==> r == None
    ensures withEps && target == PI / 2.0 + 0.001 ==> r == Some(1)
    ensures withEps && target == -PI / 2.0 - 0.001 ==> r == Some(-1)
    ensures withEps && target == 1.0 ==> r == Some(0)
  {
    var eps := new Angle.FromRadians(0.01);
    var a := new Angle.FromRadians(target);
    if !withEps {
      r := a.GetRightAngle(null);
    } else if target == PI / 2.0 + 0.001 || target == -PI / 2.0 - 0.001 || target == 1.0 {
      PlusMinusPiFixes(target);
      r := a.GetRightAngle(eps);
      assert a.GetRadian() == target;
    } else {
      r := a.GetRightAngle(eps);
    }
  }

  /** Two readings of the right-angle test under the UNSIGNED range, where
      the receiver and the tolerance are both read through the range policy:
      a receiver at -pi/2 reads 3pi/2 after its reduction and so is not
      reported as -1, and a tolerance of -0.01 reads as 2pi - 0.01, so a
      receiver at 0 is reported as a right angle. */
  method UnsignedRightAngleExamples() returns (down: Option<int>, zero: Option<int>)
    ensures down == Some(0)
    ensures zero == Some(1)
  {
    var eps := new Angle.FromRadians(0.01);
    var a := new Angle.FromRadians(-PI / 2.0);
    a.SetRange(Unsigned);
    PlusMinusPiFixes(-PI / 2.0);
    NormalisedNegative(-PI / 2.0);
    down := a.GetRightAngle(eps);
    var wide := new Angle.FromRadians(-0.01);
    wide.SetRange(Unsigned);
    NormalisedNegative(-0.01);
    var b := new Angle.FromRadians(0.0);
    b.SetRange(Unsigned);
    PlusMinusPiFixes(0.0);
    zero := b.GetRightAngle(wide);
  }

  /** The DEGREES constructor: 180 degrees is pi radians. */
  method DegreesExample() returns (rad: real)
    ensures rad == PI
  {
    var deg := new Angle.FromUnits(180.0, Degrees);
    rad := deg.GetRadian();
  }
}
