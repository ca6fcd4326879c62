/**
 * The vector primitive of the gravitate simulator (src/core/geometry/vector.ts):
 * a mutable object holding 2, 3 or 4 numbers, a zero-vector factory, in-place
 * scaling and a `distanceTo` that guards against a length mismatch.
 *
 * Numbers are modelled as `real`; the TypeScript type parameter `D` (the
 * dimension) is erased at run time, so it appears here only as a ghost
 * parameter. `Math.sqrt` is a foreign routine: `DistanceTo` receives it as a
 * parameter, and the facts that need it assume `IsSqrt(sqrt)`.
 */
module Geometry {

  /** The dimensions the source admits at the type level: 2, 3 or 4. */
  type Dimension = d: int | 2 <= d <= 4 witness 2

  /** The two errors the source throws. */
  datatype VectorError = UnsupportedDimension | DimensionMismatch

  /** A value or the error the source would have thrown instead. */
  datatype Result<T> = Ok(value: T) | Err(error: VectorError)

  /** JavaScript truthiness of a number (NaN aside, which no literal here is). */
  predicate Truthy(n: int) {
    n != 0
  }

  /**
   * The element list of a "zero vector of dimension d". Each test is on a
   * numeric literal cast to `D`, not on `d`, so the first branch is always
   * taken: the result is two zeros whatever `d` is, and the 3-, 4- and
   * error branches are dead.
   */
  function ZeroVectorElements(ghost d: Dimension): (r: Result<seq<real>>)
    ensures r == Ok([0.0, 0.0])
    ensures d != 2 ==> |r.value| != d
  {
    if Truthy(2) then Ok([0.0, 0.0])
    else if Truthy(3) then Ok([0.0, 0.0, 0.0])
    else if Truthy(4) then Ok([0.0, 0.0, 0.0, 0.0])
    else Err(UnsupportedDimension)
  }

  /** What the zero-vector factory evidently means to build: `d` zeros. */
  function IntendedZeroVectorElements(d: Dimension): (r: seq<real>)
    ensures |r| == d
    ensures forall i :: 0 <= i < |r| ==> r[i] == 0.0
  {
    seq(d, _ => 0.0)
  }

  /** For dimension 3 the zero elements as written have length 2; the intended ones have length 3. */
  lemma ZeroVectorDimensionCounterexample()
    ensures |ZeroVectorElements(3).value| == 2
    ensures |IntendedZeroVectorElements(3)| == 3
  {
  }

  /** The element list after multiplying each element by `factor` (the `map` in `scale`). */
  function Scaled(s: seq<real>, factor: real): (r: seq<real>)
    ensures |r| == |s|
    ensures forall i :: 0 <= i < |s| ==> r[i] == s[i] * factor
  {
    if s == [] then [] else [s[0] * factor] + Scaled(s[1..], factor)
  }

  function Square(x: real): (r: real)
    ensures 0.0 <= r
  {
    x * x
  }

  /**
   * The running `sum` of `distanceTo` after `n` turns of its loop:
   * the squares of the element-wise SUMS a[i] + b[i], for i < n.
   */
  function SquaredSumsUpTo(a: seq<real>, b: seq<real>, n: nat): (r: real)
    requires n <= |a| && n <= |b|
    ensures 0.0 <= r
  {
    if n == 0 then 0.0 else SquaredSumsUpTo(a, b, n - 1) + Square(a[n - 1] + b[n - 1])
  }

  /** The radicand of `distanceTo` for two lists of equal length. */
  function SquaredSums(a: seq<real>, b: seq<real>): (r: real)
    requires |a| == |b|
  {
    SquaredSumsUpTo(a, b, |a|)
  }

  /** Sum of the squares of the first `n` elements: the squared Euclidean norm. */
  function SquaredNormUpTo(a: seq<real>, n: nat): (r: real)
    requires n <= |a|
    ensures 0.0 <= r
  {
    if n == 0 then 0.0 else SquaredNormUpTo(a, n - 1) + Square(a[n - 1])
  }

  function SquaredNorm(a: seq<real>): (r: real) {
    SquaredNormUpTo(a, |a|)
  }

  /** The squared Euclidean distance that `distanceTo` evidently means to compute. */
  function SquaredDifferencesUpTo(a: seq<real>, b: seq<real>, n: nat): (r: real)
    requires n <= |a| && n <= |b|
    ensures 0.0 <= r
  {
    if n == 0 then 0.0 else SquaredDifferencesUpTo(a, b, n - 1) + Square(a[n - 1] - b[n - 1])
  }

  function SquaredDifferences(a: seq<real>, b: seq<real>): (r: real)
    requires |a| == |b|
  {
    SquaredDifferencesUpTo(a, b, |a|)
  }

  /** `sqrt` behaves as the non-negative square root on the non-negative reals. */
  ghost predicate IsSqrt(sqrt: real -> real) {
    forall x :: 0.0 <= x ==> 0.0 <= sqrt(x) && sqrt(x) * sqrt(x) == x
  }

  class Vector {
    /** The element list; private in the source, read here by the specifications. */
    var elements: seq<real>

    /** Stores the given elements, in order and unchanged. */
    constructor (elements: seq<real>)
      requires 2 <= |elements| <= 4
      ensures this.elements == elements
    {
      this.elements := elements;
    }

    /** A new vector built from `ZeroVectorElements`: always two zeros. */
    static method NewZeroVector(ghost d: Dimension) returns (v: Vector)
      ensures fresh(v)
      ensures v.elements == [0.0, 0.0]
    {
      var zeros := ZeroVectorElements(d);
      v := new Vector(zeros.value);
    }

    /** Multiplies every element by `factor`, in place. */
    method Scale(factor: real)
      modifies this
      ensures elements == Scaled(old(elements), factor)
      ensures |elements| == |old(elements)|
      ensures forall i :: 0 <= i < |elements| ==> elements[i] == old(elements)[i] * factor
    {
      elements := Scaled(elements, factor);
    }

    /**
     * Fails with `DimensionMismatch` when the lengths differ; otherwise the
     * square root of the sum of (this[i] + other[i])^2, as the source writes it.
     * Neither vector is changed (the method has no `modifies` clause).
     */
    method DistanceTo(other: Vector, sqrt: real -> real) returns (r: Result<real>)
      ensures |elements| != |other.elements| <==> r == Err(DimensionMismatch)
      ensures |elements| == |other.elements| ==> r == Ok(sqrt(SquaredSums(elements, other.elements)))
      ensures IsSqrt(sqrt) && r.Ok? ==> 0.0 <= r.value
    {
      if |elements| != |other.elements| {
        return Err(DimensionMismatch);
      }
      var sum := 0.0;
      for i := 0 to |elements|
        invariant sum == SquaredSumsUpTo(elements, other.elements, i)
      {
        sum := sum + Square(elements[i] + other.elements[i]);
      }
      r := Ok(sqrt(sum));
    }
  }
}
