# gravitate: vector and body primitives in Dafny

A model of the two primitives of the gravitate N-body simulator:

- `Vector` (src/core/geometry/vector.ts): an object that holds 2, 3 or 4
  numbers. It has a zero-vector factory, an in-place `scale`, and a
  `distanceTo` that throws when the two lengths differ.
- `Body` (src/core/body.ts): a mutable record with a mass, a position and a
  velocity. It holds its vectors by reference.

Files:

- `vector.dfy`, module `Geometry`: the `Vector` class, the zero-vector
  elements, and the specification functions its methods are proved against.
- `distance.dfy`, module `DistanceFacts`: lemmas about the value `distanceTo`
  computes.
- `body.dfy`, module `Bodies`: the `Body` class, plus three caller scenarios
  that show what aliasing means for a body's vectors.

Modelling choices:

- Numbers are `real`.
- The TypeScript type parameter `D` is erased at run time. It appears only as
  a ghost `Dimension` parameter (2, 3 or 4), so the model shows what does not
  depend on it.
- JavaScript truthiness of a number is `Truthy(n) = n != 0`.
- An exception is a `Result` with `Err(UnsupportedDimension)` or
  `Err(DimensionMismatch)`.
- An omitted constructor argument is `None` of an `Option`.
- `Math.sqrt` is not Dafny code, so `DistanceTo` takes it as the parameter
  `sqrt`. The facts that depend on it hold for every `sqrt` satisfying
  `IsSqrt` (the non-negative square root on the non-negative reals).

Two quirks are kept as the code behaves:

- Every zero vector has two elements, because `if (2 as D)` tests the
  literal 2.
- `distanceTo` adds where a distance subtracts.

The evidently intended versions are defined beside them (see "## Findings").
No other member of the model uses those intended versions.

## Model

| member | source | states |
|---|---|---|
| `Geometry.ZeroVectorElements` | src/core/geometry/vector.ts:14-28 | For every dimension the result is `[0, 0]`, never the error. So for a dimension of 3 or 4 the length differs from the dimension. |
| `Geometry.Vector.constructor` | src/core/geometry/vector.ts:38-40 | Stores exactly the given 2 to 4 elements, in order. |
| `Geometry.Vector.NewZeroVector` | src/core/geometry/vector.ts:45-47 | Returns a new vector whose elements are `[0, 0]`, whatever the dimension asked for. |
| `Geometry.Scaled` | src/core/geometry/vector.ts:55 | The mapped list has the same length, and element i is the old element i times the factor. |
| `Geometry.Vector.Scale` | src/core/geometry/vector.ts:54-56 | Changes only the receiver (`modifies this`). The length is unchanged and element i becomes old element i times the factor. |
| `Geometry.SquaredSumsUpTo` | src/core/geometry/vector.ts:68-71 | The running sum of `distanceTo`'s loop is never negative. |
| `Geometry.Vector.DistanceTo` | src/core/geometry/vector.ts:63-74 | Fails with `DimensionMismatch` exactly when the lengths differ. Otherwise it returns `sqrt` of the sum of (this_i + other_i)^2, which is non-negative for a true square root. Neither vector is modified. |
| `DistanceFacts.SquaredSumsUpToSymmetric` | src/core/geometry/vector.ts:69-71 | The accumulated sum is the same with the two vectors swapped. |
| `DistanceFacts.DistanceSymmetric` | src/core/geometry/vector.ts:63-74 | For vectors of equal length, `a.distanceTo(b)` and `b.distanceTo(a)` return the same value. |
| `DistanceFacts.SquaredSumsUpToSelf` | src/core/geometry/vector.ts:69-71 | The sum for a vector against itself is four times its squared norm. |
| `DistanceFacts.DistanceToSelfIsTwiceNorm` | src/core/geometry/vector.ts:68-73 | `v.distanceTo(v)` is twice the Euclidean norm of v, not 0. |
| `DistanceFacts.SquaredSumsUpToFromZero` | src/core/geometry/vector.ts:69-71 | Against an all-zero vector, the sum is the other vector's squared norm. |
| `DistanceFacts.DistanceFromZeroIsNorm` | src/core/geometry/vector.ts:68-73 | The distance from a zero vector equals the other vector's norm. |
| `DistanceFacts.SquaredSumsUpToZeroIff` | src/core/geometry/vector.ts:69-71 | The sum is 0 if and only if each element of b is the negation of the matching element of a. |
| `DistanceFacts.DistanceZeroIff` | src/core/geometry/vector.ts:68-73 | `distanceTo` returns 0 if and only if the other vector is the element-wise negation of the receiver, not when it is equal to it. |
| `DistanceFacts.DistanceToSelfCounterexample` | src/core/geometry/vector.ts:70 | For [1, 0] against itself the as-written sum is 4 and the distance is 2. The intended sum of squared differences is 0. |
| `DistanceFacts.CorrectedDistanceToSelfIsZero` | src/core/geometry/vector.ts:58-62 | The intended Euclidean radicand of a vector against itself is 0. |
| `DistanceFacts.CorrectedDistanceSymmetric` | src/core/geometry/vector.ts:58-62 | The intended Euclidean radicand is symmetric. |
| `Geometry.IntendedZeroVectorElements` | src/core/geometry/vector.ts:42-44 | The intended zero vector of dimension d has exactly d elements, all 0. |
| `Geometry.ZeroVectorDimensionCounterexample` | src/core/geometry/vector.ts:17-18 | For dimension 3, the as-written zero elements have length 2 and the intended ones have length 3. |
| `Bodies.Body.constructor` | src/core/body.ts:9-13 | Stores the mass as given, with no validation. A supplied position or velocity is stored as that same object. An omitted one becomes a fresh `[0, 0]` vector, whatever the dimension. Two omitted vectors are distinct objects. |
| `Bodies.ScaleSuppliedPosition` | src/core/body.ts:11 | The body is new. After a caller scales the vector it passed as a position, the body's position is that vector and holds the scaled elements. |
| `Bodies.ScalePosition` | src/core/body.ts:6-7 | Scaling a body's position leaves its velocity unchanged when the two are distinct objects, as defaults are. It scales the velocity too when both fields hold the same vector. |
| `Bodies.DefaultPositionDistance` | src/core/body.ts:9 | A defaulted position has two elements even for dimension 3, so `distanceTo` against a three-element vector fails with `DimensionMismatch`. |

## Findings

| source | as written | input that shows it | evidently intended | confidence | as-written member | corrected member |
|---|---|---|---|---|---|---|
| src/core/geometry/vector.ts:70 | squares `this_i + other_i` | v = [1, 0]: `v.distanceTo(v)` is 2 | squares `this_i - other_i`, the Euclidean distance the doc comment names, so `v.distanceTo(v)` is 0 | high, not executed | `DistanceFacts.DistanceToSelfCounterexample` | `DistanceFacts.CorrectedDistanceToSelfIsZero` |
| src/core/geometry/vector.ts:17 | `if (2 as D)` tests the literal 2, always truthy | D = 3: `Vector.NewZeroVector<3>()` has 2 elements | a zero vector with D elements | high, not executed | `Geometry.ZeroVectorDimensionCounterexample` | `Geometry.IntendedZeroVectorElements` |

## Left out

- src/core/universe.ts: its constructor only stores the array it is given. Its import of `Body` names a class that body.ts does not export, which is a module error, not behaviour.
- IEEE floating point: rounding, overflow, NaN and infinities are not modelled. `Math.pow(x, 2)` is `x * x` on reals.
- `Math.sqrt` is a parameter of `DistanceTo`. Facts that need it hold for every `sqrt` satisfying `IsSqrt`.
- The conditional type `VectorElements` is type-level only. It is the constructor's precondition that there are 2 to 4 elements.
- Static dimension checking: nothing in the model ties a body's two vectors to the same dimension. TypeScript checks that at compile time only, and the defaults show it is not true at run time.
- Gravitational stepping, `add`, `vectorTo`, `magnitude` and `normalise` do not exist in these files.
