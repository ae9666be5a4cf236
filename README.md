# Angle (org.xmlcml.euclid) in Dafny

This project models the `Angle` value type of the euclid geometry library. An
`Angle` holds three fields:

- a raw value in radians (`angle`);
- a range policy (`range`: UNLIMITED, UNSIGNED or SIGNED), which decides how the value is projected when it is read;
- a display unit (`type`: RADIANS or DEGREES), which only affects formatting.

The model proves the following things about range reduction:

- the looping `normalise` returns a value in [0, 2pi] that differs from its input by whole turns;
- the two in-place normalisers keep the flags and keep the direction;
- every reader goes through `adjust`: under each range policy the radian reading is pinned down exactly, and the degree reading is that radian reading converted;
- the right-angle test normalises the receiver as a side effect, and its result is stated exactly;
- the comparisons look only at normalised raw values: whole turns added to either the receiver or the argument change no answer, except where they reach 0 or 2pi;
- under the UNLIMITED range, degrees read back unchanged after conversion;
- arithmetic returns fresh objects with the default flags.

Files:

- `circle.dfy`, module `Circle`: real arithmetic over whole turns. It defines pi, whole turns, and both reference reductions as closed forms with their lemmas. `Turn(k)` is k times 2pi. `Turns(x)` is the number of whole turns below x. `Normalised(x)` is the reduction into [0, 2pi]: x minus `Turn(Turns(x))`, except that a positive multiple of 2pi gives 2pi. `PlusMinusPi(x)` is the reduction into (-pi, pi].
- `angle.dfy`, module `Euclid`: the class `Angle` with its fields, constructors and methods, plus lemmas about it.

Modelling decisions:

- Doubles become Dafny `real`. `Math.PI` is the constant `PI`, which has no definition, so proofs cannot use its exact value. The model knows only that 3.14159 < PI < 3.14160. That is enough for the concrete examples, such as 0.001 < pi/2.
- The static `normalise` is the method `Angle.Normalise`. It keeps the two `while` loops, and its loop invariant keeps the reference value `Normalised(r)` fixed. Termination uses `TurnMeasure(r)`: the floor of r / 2pi, negated below zero. It drops by one on every pass of either loop.
- Functions cannot call methods. So `Adjust`, the readers and the comparisons use the function `Normalised`, which the method is proved equal to.
- The `type` field is called `units`, because `type` is a keyword in Dafny.
- The `Integer` returned by `getRightAngle`, which may be null, becomes `Option<int>`. A null tolerance becomes `eps: Angle?`.
- The Java overloads get distinct names. For example, `greaterThan(Angle)` is `GreaterThanAngle`. The constructors are `Angle()`, `FromRadians`, `FromUnits` and `Copy`.

Where the documentation and the code disagree, the model follows the code:

- **Closed interval.** `normalise` returns a value in the CLOSED interval [0, 2pi]. Its first loop runs while the value is `> 2*PI`, so exactly 2pi, or any positive multiple of it, comes out as 2pi. Meanwhile 0 and the negative multiples come out as 0. So `normalise(x + 2pi) == normalise(x)` holds for every x except x = 0 (`Circle.NormalisedPeriodic`, `Circle.NormalisedOfTurn`, `Circle.NormalisedAtZeroAndTwoPi`).
- **Comparisons at zero.** For the same reason, an angle of 0 compares as less than 2pi (`Euclid.ComparisonFullTurn`).
- **No such exception in (-pi, pi].** The reduction into (-pi, pi] has no exception at zero (`Circle.PlusMinusPiPeriodic`).
- **Default range.** The class comment says the default range is SIGNED, but the field is initialised to UNLIMITED. The constructors here set UNLIMITED.
- **Right-angle test under UNSIGNED.** The test promises 1 for pi/2 and -1 for -pi/2, but it reads both the receiver and the tolerance through their range policies. An UNSIGNED receiver at -pi/2 is reduced to -pi/2 and then read as 3pi/2, so the answer is 0, not -1. An UNSIGNED tolerance of -0.01 reads as 2pi - 0.01, so an UNSIGNED receiver at 0 is reported as 1 (`Euclid.UnsignedRightAngleExamples`).
- **Unit flag in the constructor.** The constructor that takes a unit converts its input, but it leaves the display unit at RADIANS, even for DEGREES.

## Model

| member | source | states |
|---|---|---|
| `Circle.Normalised` | src/main/java/org/xmlcml/euclid/Angle.java:192-201 | the reference value of `normalise`: it lies in the closed interval [0, 2pi] and differs from the input by a whole number of turns |
| `Euclid.Angle.Normalise` | src/main/java/org/xmlcml/euclid/Angle.java:192-201 | the two loops return exactly `Normalised(x)`, which is in [0, 2pi] and points the same way as x |
| `Circle.NormalisedFixes` | src/main/java/org/xmlcml/euclid/Angle.java:193-198 | a value already in [0, 2pi] passes through both loops unchanged |
| `Circle.NormalisedIdempotent` | src/main/java/org/xmlcml/euclid/Angle.java:192-201 | normalising twice gives the same value as normalising once |
| `Circle.NormalisedNegative` | src/main/java/org/xmlcml/euclid/Angle.java:196-198 | a value in [-2pi, 0) is raised by exactly one turn |
| `Circle.NormalisedPeriodic` | src/main/java/org/xmlcml/euclid/Angle.java:192-201 | adding one full turn does not change the result, for every nonzero input |
| `Circle.NormalisedAtZeroAndTwoPi` | src/main/java/org/xmlcml/euclid/Angle.java:193 | the exception: normalise(0) is 0, but normalise(2pi) is 2pi, because the guard is strict |
| `Circle.NormalisedUnique` | src/main/java/org/xmlcml/euclid/Angle.java:192-201 | any value strictly inside (0, 2pi) that differs from x by whole turns is the result for x |
| `Circle.NormalisedOfTurn` | src/main/java/org/xmlcml/euclid/Angle.java:193-198 | n whole turns become 2pi when n >= 1, and 0 otherwise |
| `Circle.NormalisedOfThreePi` | src/main/java/org/xmlcml/euclid/Angle.java:193-195 | 3pi is reduced to pi |
| `Circle.PlusMinusPi` | src/main/java/org/xmlcml/euclid/Angle.java:206-211 | the value `normalizeToPlusMinusPI` stores lies in (-pi, pi] and differs from the input by whole turns |
| `Circle.PlusMinusPiFixes` | src/main/java/org/xmlcml/euclid/Angle.java:206-211 | a value already in (-pi, pi] is stored back unchanged |
| `Circle.PlusMinusPiUnique` | src/main/java/org/xmlcml/euclid/Angle.java:206-211 | the result is the only value in (-pi, pi] that differs from the input by whole turns |
| `Circle.PlusMinusPiPeriodic` | src/main/java/org/xmlcml/euclid/Angle.java:206-211 | adding one full turn never changes the result, zero included |
| `Circle.PlusMinusPiIdempotent` | src/main/java/org/xmlcml/euclid/Angle.java:206-211 | applying the reduction twice gives the same value as applying it once |
| `Circle.ToRadians` | src/main/java/org/xmlcml/euclid/Angle.java:381-383 | dividing degrees by DEGREES_IN_RADIAN gives radians, and multiplying by it gives the degrees back |
| `Euclid.Angle.constructor` | src/main/java/org/xmlcml/euclid/Angle.java:67-85 | the default angle is 0.0 with range UNLIMITED and unit RADIANS |
| `Euclid.Angle.FromRadians` | src/main/java/org/xmlcml/euclid/Angle.java:91-93 | the raw value is the input and the flags are the defaults |
| `Euclid.Angle.FromUnits` | src/main/java/org/xmlcml/euclid/Angle.java:100-102 | with RADIANS the raw value is the input; with DEGREES it is the input converted to radians; the flags stay at their defaults |
| `Euclid.Angle.Copy` | src/main/java/org/xmlcml/euclid/Angle.java:117-121 | all three fields equal the source's |
| `Euclid.Angle.ShallowCopy` | src/main/java/org/xmlcml/euclid/Angle.java:127-131 | all three fields take the source's old values, and nothing else changes |
| `Euclid.Angle.Plus` | src/main/java/org/xmlcml/euclid/Angle.java:138-141 | a fresh angle holding the sum of the raw values, with UNLIMITED/RADIANS flags; both operands are unchanged |
| `Euclid.Angle.Subtract` | src/main/java/org/xmlcml/euclid/Angle.java:148-151 | a fresh angle holding the difference of the raw values, with the default flags; both operands are unchanged |
| `Euclid.Angle.MultiplyBy` | src/main/java/org/xmlcml/euclid/Angle.java:158-161 | a fresh angle holding the raw value times the scalar, with the default flags; the receiver is unchanged |
| `Euclid.Angle.NormalizeToPlusMinusPI` | src/main/java/org/xmlcml/euclid/Angle.java:206-211 | the raw value becomes `PlusMinusPi` of the old one, which is in (-pi, pi] and points the same way; range and unit are unchanged |
| `Euclid.Angle.NormalizeTo2Pi` | src/main/java/org/xmlcml/euclid/Angle.java:216-218 | the raw value becomes `Normalised` of the old one, which is in [0, 2pi] and points the same way; range and unit are unchanged |
| `Euclid.Angle.Adjust` | src/main/java/org/xmlcml/euclid/Angle.java:395-408 | UNLIMITED returns the value unchanged. UNSIGNED returns the normalised value, in [0, 2pi]. SIGNED returns exactly the reduction into (-pi, pi], because the `temp < -PI` branch can never fire |
| `Euclid.Angle.GetRadian` | src/main/java/org/xmlcml/euclid/Angle.java:367-369 | the reading under each range policy: the raw value, the value in [0, 2pi], or the value in (-pi, pi] |
| `Euclid.Angle.GetAngle` | src/main/java/org/xmlcml/euclid/Angle.java:359-361 | the same reading as `getRadian` |
| `Euclid.Angle.GetDegrees` | src/main/java/org/xmlcml/euclid/Angle.java:375-377 | converting the result back to radians gives the `getRadian` reading under every range policy. So under UNLIMITED it gives the raw value; under UNSIGNED the result is in [0, 360], and under SIGNED in (-180, 180] |
| `Euclid.DegreesBounds` | src/main/java/org/xmlcml/euclid/Angle.java:33-34 | radians in [0, 2pi] become degrees in [0, 360], and radians in (-pi, pi] become degrees in (-180, 180] |
| `Euclid.Angle.PutDegrees` | src/main/java/org/xmlcml/euclid/Angle.java:381-383 | the raw value becomes the degrees converted to radians, ignoring the range policy; the flags are unchanged |
| `Euclid.DegreesRoundTrip` | src/main/java/org/xmlcml/euclid/Angle.java:375-383 | under UNLIMITED, `getDegrees` returns the d that `putDegrees(d)` or the DEGREES constructor stored |
| `Euclid.DegreesExample` | src/main/java/org/xmlcml/euclid/Angle.java:100-102 | an angle built from 180 DEGREES reads pi radians |
| `Euclid.Angle.SetRange` | src/main/java/org/xmlcml/euclid/Angle.java:389-391 | only the range changes; the raw value and the unit stay as they were |
| `Euclid.Angle.GetRightAngle` | src/main/java/org/xmlcml/euclid/Angle.java:226-237 | a null tolerance gives None and leaves the receiver untouched. Otherwise the result is Some of -1, 0 or 1. The receiver is left reduced into (-pi, pi] with its flags unchanged. The result is 1 exactly when abs(pi/2 - reading) < abs(old tolerance reading). It is -1 exactly when that test fails and the same test against -pi/2 holds |
| `Euclid.ReadingAfterPlusMinusPi` | src/main/java/org/xmlcml/euclid/Angle.java:229-235 | after that reduction, an UNLIMITED or SIGNED receiver reads its raw value, but an UNSIGNED receiver reads a negative value one turn higher |
| `Euclid.RightAngleExamples` | src/main/java/org/xmlcml/euclid/Angle.java:226-237 | with a tolerance of 0.01: pi/2 + 0.001 gives 1, -pi/2 - 0.001 gives -1, 1.0 gives 0, and no tolerance gives None |
| `Euclid.UnsignedRightAngleExamples` | src/main/java/org/xmlcml/euclid/Angle.java:224-237 | under UNSIGNED, a receiver at -pi/2 gives 0 rather than -1, and a tolerance of -0.01 makes a receiver at 0 give 1 |
| `Euclid.RangeReadingExamples` | src/main/java/org/xmlcml/euclid/Angle.java:395-408 | a raw 3pi reads pi under both SIGNED and UNSIGNED; a raw -0.5 reads 2pi - 0.5 under UNSIGNED |
| `Euclid.Angle.GreaterThan` | src/main/java/org/xmlcml/euclid/Angle.java:269-271 | greaterThan is exactly not lessThanOrEquals; when both raw values are already in [0, 2pi] it is plain `>` on them |
| `Euclid.Angle.GreaterThanOrEquals` | src/main/java/org/xmlcml/euclid/Angle.java:278-280 | true whenever both values normalise to the same value; when both raw values are already in [0, 2pi] it is plain `>=` on them |
| `Euclid.Angle.LessThan` | src/main/java/org/xmlcml/euclid/Angle.java:287-289 | lessThan is exactly not greaterThanOrEquals; when both raw values are already in [0, 2pi] it is plain `<` on them |
| `Euclid.Angle.LessThanOrEquals` | src/main/java/org/xmlcml/euclid/Angle.java:296-298 | true whenever both values normalise to the same value; when both raw values are already in [0, 2pi] it is plain `<=` on them |
| `Euclid.Angle.GreaterThanAngle` | src/main/java/org/xmlcml/euclid/Angle.java:324-326 | the Angle overload is exactly not `lessThanOrEquals(Angle)`; on raw values in [0, 2pi] it is plain `>` on the receiver's and the argument's raw values |
| `Euclid.Angle.GreaterThanOrEqualsAngle` | src/main/java/org/xmlcml/euclid/Angle.java:333-335 | true whenever the two raw values normalise alike; on raw values in [0, 2pi] it is plain `>=` on them |
| `Euclid.Angle.LessThanAngle` | src/main/java/org/xmlcml/euclid/Angle.java:342-344 | the Angle overload is exactly not `greaterThanOrEquals(Angle)`; on raw values in [0, 2pi] it is plain `<` on them |
| `Euclid.Angle.LessThanOrEqualsAngle` | src/main/java/org/xmlcml/euclid/Angle.java:351-353 | true whenever the two raw values normalise alike; on raw values in [0, 2pi] it is plain `<=` on them |
| `Euclid.AngleComparisonsIgnoreRange` | src/main/java/org/xmlcml/euclid/Angle.java:324-353 | the Angle overloads equal the double overloads applied to the argument's raw value, whatever either object's range or unit |
| `Euclid.ComparisonFullTurn` | src/main/java/org/xmlcml/euclid/Angle.java:269-298 | x and x + 2pi are neither greater nor less than each other for x != 0; for x = 0, 0 is less than 2pi |
| `Euclid.ComparisonsCoterminal` | src/main/java/org/xmlcml/euclid/Angle.java:269-298 | two arguments that differ by whole turns, and do not normalise to 0 or 2pi, give the same answer to all four comparisons |
| `Euclid.ReceiversCoterminal` | src/main/java/org/xmlcml/euclid/Angle.java:269-298 | two receivers that differ by whole turns, and do not normalise to 0 or 2pi, give the same answer to all four comparisons against any value, whatever their range policies |

## Left out

- Floating point: doubles are reals, so IEEE rounding, NaN and infinities are not modelled, and the exact value of `Math.PI` is abstract. Reals cannot represent the inputs on which the Java `normalise` behaves differently. With NaN both loop guards are false, so NaN comes back at once. With an infinity, or with a finite double of magnitude about 2^56 or more (1e17, say), subtracting or adding `2 * Math.PI` rounds back to the same value, so the Java loop never ends.
- `Euclid.Angle.Normalise`: the termination proof (`TurnMeasure` drops by one per pass) holds over the reals only; it does not carry over to doubles of that size.
- Null arguments: Dafny's non-null types exclude them. In Java, `plus`, `subtract`, the copy constructor, `shallowCopy` and the `Angle` overloads of the comparisons (`Angle.Plus`, `Angle.Subtract`, `Angle.Copy`, `Angle.ShallowCopy`, `Angle.GreaterThanAngle` and the rest) throw NullPointerException on a null argument. `setRange(null)` (`Angle.SetRange`) is accepted, and `adjust` then reads the value as SIGNED, because neither range test matches. `Angle(a, null)` (`Angle.FromUnits`) converts its input from degrees. None of this is modelled. Only the right-angle test takes a nullable argument here, because there null is an answer rather than a failure.
- `cos`, `sin`, `tan` and the `atan2` constructor `Angle(double y, double x)`: these only call `java.lang.Math`, which is not part of this model.
- `isEqualTo` (both overloads): they delegate to `Real.isEqual`, which is not part of this model.
- `toString`: formatting doubles as text is library behaviour. The display unit field is kept and copied, but nothing reads it.
- The `LOG.trace` call in `normalise`: it only writes to the log.
