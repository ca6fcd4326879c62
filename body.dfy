/**
 * The body record of the gravitate simulator (src/core/body.ts): a mass and
 * two vectors, all public and mutable. The vectors are held by reference, so
 * an in-place `Scale` on a vector is seen by every body that holds it.
 */
module Bodies {
  import opened Geometry

  /** An optional argument: `None` is an omitted (undefined) one. */
  datatype Option<T> = None | Some(value: T)

  class Body {
    var mass: real
    var position: Vector
    var velocity: Vector

    /**
     * Stores `mass` as given (no check, so zero or negative masses are
     * accepted) and the supplied vectors themselves, not copies; an omitted
     * vector becomes a new zero vector, which has two elements whatever
     * the dimension `d` is. Two omitted vectors are two different objects.
     */
    constructor (mass: real, position: Option<Vector>, velocity: Option<Vector>, ghost d: Dimension)
      ensures this.mass == mass
      ensures position.Some? ==> this.position == position.value
      ensures velocity.Some? ==> this.velocity == velocity.value
      ensures position.None? ==> fresh(this.position) && this.position.elements == [0.0, 0.0]
      ensures velocity.None? ==> fresh(this.velocity) && this.velocity.elements == [0.0, 0.0]
      ensures position.None? && velocity.None? ==> this.position != this.velocity
    {
      var p: Vector;
      if position.Some? {
        p := position.value;
      } else {
        p := Vector.NewZeroVector(d);
      }
      var v: Vector;
      if velocity.Some? {
        v := velocity.value;
      } else {
        v := Vector.NewZeroVector(d);
      }
      this.mass := mass;
      this.position := p;
      this.velocity := v;
    }
  }

  /**
   * A caller builds a body around its own position vector and later scales
   * that vector: the body's position is the caller's vector, so it sees the
   * scaled elements.
   */
  method ScaleSuppliedPosition(mass: real, p: Vector, factor: real, ghost d: Dimension) returns (b: Body)
    modifies p
    ensures fresh(b)
    ensures b.mass == mass && b.position == p
    ensures b.position.elements == Scaled(old(p.elements), factor)
  {
    b := new Body(mass, Some(p), None, d);
    p.Scale(factor);
  }

  /**
   * `b.position.Scale(factor)` as a caller writes it: the position is
   * scaled, and the velocity changes with it exactly when both fields hold
   * the same vector object.
   */
  method ScalePosition(b: Body, factor: real)
    modifies b.position
    ensures b.position.elements == Scaled(old(b.position.elements), factor)
    ensures b.position != b.velocity ==> b.velocity.elements == old(b.velocity.elements)
    ensures b.position == b.velocity ==> b.velocity.elements == Scaled(old(b.velocity.elements), factor)
  {
    b.position.Scale(factor);
  }

  /**
   * A body built without a position, for any dimension, holds a two-element
   * zero vector; measuring it against a three-element vector fails with
   * `DimensionMismatch`.
   */
  method DefaultPositionDistance(mass: real, other: Vector, sqrt: real -> real, ghost d: Dimension)
    returns (r: Result<real>)
    requires |other.elements| == 3
    ensures r == Err(DimensionMismatch)
  {
    var b := new Body(mass, None, None, d);
    r := b.position.DistanceTo(other, sqrt);
  }
}
