/**
 * Facts about the value `distanceTo` computes (src/core/geometry/vector.ts),
 * stated on its radicand `SquaredSums` and, where the square root matters,
 * for any `sqrt` that is the non-negative square root.
 */
module DistanceFacts {
  import opened Geometry

  /** The radicand does not depend on the order of the two vectors. */
  lemma {:induction false} SquaredSumsUpToSymmetric(a: seq<real>, b: seq<real>, n: nat)
    requires n <= |a| && n <= |b|
    ensures SquaredSumsUpTo(a, b, n) == SquaredSumsUpTo(b, a, n)
  {
    if n > 0 {
      SquaredSumsUpToSymmetric(a, b, n - 1);
      assert a[n - 1] + b[n - 1] == b[n - 1] + a[n - 1];
    }
  }

  /** For vectors of equal length, `a.distanceTo(b)` and `b.distanceTo(a)` return the same value. */
  lemma DistanceSymmetric(a: seq<real>, b: seq<real>, sqrt: real -> real)
    requires |a| == |b|
    ensures sqrt(SquaredSums(a, b)) == sqrt(SquaredSums(b, a))
  {
    SquaredSumsUpToSymmetric(a, b, |a|);
  }

  /** Against itself, the radicand is four times the squared norm (it would be 0 for a distance). */
  lemma {:induction false} SquaredSumsUpToSelf(a: seq<real>, n: nat)
    requires n <= |a|
    ensures SquaredSumsUpTo(a, a, n) == 4.0 * SquaredNormUpTo(a, n)
  {
    if n > 0 {
      SquaredSumsUpToSelf(a, n - 1);
      var x := a[n - 1];
      assert Square(x + x) == 4.0 * Square(x);
    }
  }

  /** Against a vector of zeros, the radicand is the other vector's squared norm. */
  lemma {:induction false} SquaredSumsUpToFromZero(z: seq<real>, b: seq<real>, n: nat)
    requires n <= |z| && n <= |b|
    requires forall i :: 0 <= i < |z| ==> z[i] == 0.0
    ensures SquaredSumsUpTo(z, b, n) == SquaredNormUpTo(b, n)
  {
    if n > 0 {
      SquaredSumsUpToFromZero(z, b, n - 1);
    }
  }

  /** The radicand is 0 exactly when `b` is the element-wise negation of `a`. */
  lemma {:induction false} SquaredSumsUpToZeroIff(a: seq<real>, b: seq<real>, n: nat)
    requires n <= |a| && n <= |b|
    ensures SquaredSumsUpTo(a, b, n) == 0.0 <==> forall i :: 0 <= i < n ==> b[i] == -a[i]
  {
    if n > 0 {
      SquaredSumsUpToZeroIff(a, b, n - 1);
      var x := a[n - 1] + b[n - 1];
      if x != 0.0 {
        if x < 0.0 {
          SquareIsMonotonic(0.0, -x);
        } else {
          SquareIsMonotonic(0.0, x);
        }
        assert 0.0 < Square(x);
        assert b[n - 1] != -a[n - 1];
      } else {
        assert Square(x) == 0.0;
        assert b[n - 1] == -a[n - 1];
      }
    }
  }

  /** Two non-negative numbers with the same square are equal. */
  lemma NonNegativeSquareRootUnique(x: real, y: real)
    requires 0.0 <= x && 0.0 <= y && x * x == y * y
    ensures x == y
  {
    if x < y {
      SquareIsMonotonic(x, y);
    } else if y < x {
      SquareIsMonotonic(y, x);
    }
  }

  lemma SquareIsMonotonic(x: real, y: real)
    requires 0.0 <= x < y
    ensures x * x < y * y
  {
    var d := y - x;
    assert 0.0 < d;
    assert y * y == x * x + 2.0 * x * d + d * d;
    assert 0.0 <= x * d;
    assert 0.0 < d * d;
  }

  /** The square root of 4x is twice the square root of x. */
  lemma SqrtOfFourTimes(sqrt: real -> real, x: real)
    requires IsSqrt(sqrt) && 0.0 <= x
    ensures sqrt(4.0 * x) == 2.0 * sqrt(x)
  {
    var s := sqrt(x);
    assert 0.0 <= s && s * s == x;
    assert 0.0 <= sqrt(4.0 * x) && sqrt(4.0 * x) * sqrt(4.0 * x) == 4.0 * x;
    assert (2.0 * s) * (2.0 * s) == 4.0 * x;
    NonNegativeSquareRootUnique(sqrt(4.0 * x), 2.0 * s);
  }

  /** `v.distanceTo(v)` is twice the norm of `v`, not 0. */
  lemma DistanceToSelfIsTwiceNorm(a: seq<real>, sqrt: real -> real)
    requires IsSqrt(sqrt)
    ensures sqrt(SquaredSums(a, a)) == 2.0 * sqrt(SquaredNorm(a))
  {
    SquaredSumsUpToSelf(a, |a|);
    SqrtOfFourTimes(sqrt, SquaredNorm(a));
  }

  /** The distance from a vector of zeros to `b` is the norm of `b`. */
  lemma DistanceFromZeroIsNorm(z: seq<real>, b: seq<real>, sqrt: real -> real)
    requires |z| == |b|
    requires forall i :: 0 <= i < |z| ==> z[i] == 0.0
    ensures sqrt(SquaredSums(z, b)) == sqrt(SquaredNorm(b))
  {
    SquaredSumsUpToFromZero(z, b, |b|);
  }

  /** The distance is 0 exactly when `b` is the negation of `a` (it would be `b == a` for a distance). */
  lemma DistanceZeroIff(a: seq<real>, b: seq<real>, sqrt: real -> real)
    requires IsSqrt(sqrt) && |a| == |b|
    ensures sqrt(SquaredSums(a, b)) == 0.0 <==> forall i :: 0 <= i < |a| ==> b[i] == -a[i]
  {
    var x := SquaredSums(a, b);
    SquaredSumsUpToZeroIff(a, b, |a|);
    var s := sqrt(x);
    assert 0.0 <= s && s * s == x;
    if s != 0.0 {
      SquareIsMonotonic(0.0, s);
    }
  }

  /** A witness: for [1, 0] the as-written radicand against itself is 4, the intended one 0. */
  lemma DistanceToSelfCounterexample(sqrt: real -> real)
    requires IsSqrt(sqrt)
    ensures SquaredSums([1.0, 0.0], [1.0, 0.0]) == 4.0
    ensures sqrt(SquaredSums([1.0, 0.0], [1.0, 0.0])) == 2.0
    ensures SquaredDifferences([1.0, 0.0], [1.0, 0.0]) == 0.0
  {
    var a := [1.0, 0.0];
    SquaredSumsUpToSelf(a, 2);
    assert SquaredNorm(a) == 1.0;
    NonNegativeSquareRootUnique(sqrt(4.0), 2.0);
    CorrectedDistanceToSelfIsZero(a, 2);
  }

  /** The evidently intended radicand: 0 for a vector against itself. */
  lemma {:induction false} CorrectedDistanceToSelfIsZero(a: seq<real>, n: nat)
    requires n <= |a|
    ensures SquaredDifferencesUpTo(a, a, n) == 0.0
  {
    if n > 0 {
      CorrectedDistanceToSelfIsZero(a, n - 1);
    }
  }

  /** The evidently intended radicand is symmetric too. */
  lemma {:induction false} CorrectedDistanceSymmetric(a: seq<real>, b: seq<real>, n: nat)
    requires n <= |a| && n <= |b|
    ensures SquaredDifferencesUpTo(a, b, n) == SquaredDifferencesUpTo(b, a, n)
  {
    if n > 0 {
      CorrectedDistanceSymmetric(a, b, n - 1);
      assert Square(a[n - 1] - b[n - 1]) == Square(b[n - 1] - a[n - 1]);
    }
  }
}
