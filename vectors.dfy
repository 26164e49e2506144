/** `Vector3` of the math module: three-component vectors whose pure
    operations return a new vector (modelled as functions on the value `Vec`)
    and whose in-place operations update the object and return it. */
module Vectors {
  import opened Numbers

  /** The value held by a `Vector3`: its three components. */
  datatype Vec = Vec(x: Number, y: Number, z: Number)

  /** The static factory getters: each call builds a new vector with these components. */
  const Zero: Vec := Vec(Real(0.0), Real(0.0), Real(0.0))
  const One: Vec := Vec(Real(1.0), Real(1.0), Real(1.0))
  const Up: Vec := Vec(Real(0.0), Real(1.0), Real(0.0))
  const Down: Vec := Vec(Real(0.0), Real(-1.0), Real(0.0))
  const Right: Vec := Vec(Real(1.0), Real(0.0), Real(0.0))
  const Left: Vec := Vec(Real(-1.0), Real(0.0), Real(0.0))
  const Forward: Vec := Vec(Real(0.0), Real(0.0), Real(1.0))
  const Back: Vec := Vec(Real(0.0), Real(0.0), Real(-1.0))

  predicate HasNaN(v: Vec) {
    v.x.NaN? || v.y.NaN? || v.z.NaN?
  }

  /** A vector of three reals, as the matrix layer consumes it. */
  function RealVec(x: real, y: real, z: real): (v: Vec)
    ensures !HasNaN(v)
  {
    Vec(Real(x), Real(y), Real(z))
  }

  /** `a.sum(b)`: a new vector, componentwise sum; a NaN anywhere shows up in the result. */
  function Sum(a: Vec, b: Vec): (r: Vec)
    ensures HasNaN(r) <==> HasNaN(a) || HasNaN(b)
  {
    Vec(Plus(a.x, b.x), Plus(a.y, b.y), Plus(a.z, b.z))
  }

  /** `a.diff(b)`: a new vector, componentwise difference. */
  function Diff(a: Vec, b: Vec): (r: Vec)
    ensures HasNaN(r) <==> HasNaN(a) || HasNaN(b)
  {
    Vec(Minus(a.x, b.x), Minus(a.y, b.y), Minus(a.z, b.z))
  }

  /** `a.scaled(n)`: a new vector, every component multiplied by `n`. */
  function Scaled(a: Vec, n: Number): (r: Vec)
    ensures HasNaN(r) <==> HasNaN(a) || n.NaN?
  {
    Vec(Times(a.x, n), Times(a.y, n), Times(a.z, n))
  }

  /** `Vector3.cross(left, right)`. */
  function Cross(a: Vec, b: Vec): (r: Vec)
    ensures HasNaN(r) <==> HasNaN(a) || HasNaN(b)
  {
    Vec(Minus(Times(a.y, b.z), Times(a.z, b.y)),
        Minus(Times(a.z, b.x), Times(a.x, b.z)),
        Minus(Times(a.x, b.y), Times(a.y, b.x)))
  }

  /** `Vector3.dot(a, b)`. */
  function Dot(a: Vec, b: Vec): (r: Number)
    ensures r.NaN? <==> HasNaN(a) || HasNaN(b)
  {
    Plus(Plus(Times(a.x, b.x), Times(a.y, b.y)), Times(a.z, b.z))
  }

  /** The squared length `x*x + y*y + z*z`. */
  function LengthSq(v: Vec): Number {
    Dot(v, v)
  }

  /** The `magnitude` getter: `Math.sqrt(x*x + y*y + z*z)`. */
  function Magnitude(math: HostMath, v: Vec): (r: Number)
    ensures r.NaN? <==> HasNaN(v)
  {
    var s := LengthSq(v);
    if s.NaN? then NaN else Real(math.sqrt(s.val))
  }

  /** `v.normalized()`: a zero-length vector is returned as an equal copy,
      otherwise every component is multiplied by `1 / magnitude`. */
  function Normalized(math: HostMath, v: Vec): (r: Vec)
    ensures HasNaN(r) <==> HasNaN(v)
  {
    var len := Magnitude(math, v);
    if len == Real(0.0) then v
    else Scaled(v, if len.NaN? then NaN else Real(1.0 / len.val))
  }

  /** `a.equals(b)`: strict equality of every component. This is value
      equality, except that a vector holding NaN equals nothing, not even itself. */
  predicate Equals(a: Vec, b: Vec)
    ensures Equals(a, b) <==> a == b && !HasNaN(a)
  {
    StrictEquals(a.x, b.x) && StrictEquals(a.y, b.y) && StrictEquals(a.z, b.z)
  }

  /** Subtracting what was added gives back the original vector. */
  lemma DiffUndoesSum(a: Vec, b: Vec)
    requires !HasNaN(a) && !HasNaN(b)
    ensures Diff(Sum(a, b), b) == a
    ensures Sum(Diff(a, b), b) == a
  {
  }

  /** The cross product is orthogonal to both operands. */
  lemma CrossIsOrthogonal(a: Vec, b: Vec)
    requires !HasNaN(a) && !HasNaN(b)
    ensures Dot(Cross(a, b), a) == Real(0.0)
    ensures Dot(Cross(a, b), b) == Real(0.0)
  {
    var a1, a2, a3 := a.x.val, a.y.val, a.z.val;
    var b1, b2, b3 := b.x.val, b.y.val, b.z.val;
    calc {
      Dot(Cross(a, b), a).val;
      (a2 * b3 - a3 * b2) * a1 + (a3 * b1 - a1 * b3) * a2 + (a1 * b2 - a2 * b1) * a3;
      a2 * b3 * a1 - a3 * b2 * a1 + a3 * b1 * a2 - a1 * b3 * a2 + a1 * b2 * a3 - a2 * b1 * a3;
      0.0;
    }
    calc {
      Dot(Cross(a, b), b).val;
      (a2 * b3 - a3 * b2) * b1 + (a3 * b1 - a1 * b3) * b2 + (a1 * b2 - a2 * b1) * b3;
      a2 * b3 * b1 - a3 * b2 * b1 + a3 * b1 * b2 - a1 * b3 * b2 + a1 * b2 * b3 - a2 * b1 * b3;
      0.0;
    }
  }

  /** Without NaN, the dot product is the real sum of componentwise products. */
  lemma DotOfReals(a: Vec, b: Vec)
    requires !HasNaN(a) && !HasNaN(b)
    ensures Dot(a, b) == Real(a.x.val * b.x.val + a.y.val * b.y.val + a.z.val * b.z.val)
  {
  }

  /** The dot product is symmetric. */
  lemma DotSymmetric(a: Vec, b: Vec)
    ensures Dot(a, b) == Dot(b, a)
  {
  }

  /** A square is never negative. */
  lemma SquareNonNegative(x: real)
    ensures x * x >= 0.0
  {
    if x < 0.0 {
      assert (-x) * (-x) > 0.0;
    } else if x > 0.0 {
      assert x * x > 0.0;
    }
  }

  /** The squared length of a vector without NaN is a non-negative real. */
  lemma LengthSqNonNegative(v: Vec)
    requires !HasNaN(v)
    ensures LengthSq(v).Real? && LengthSq(v).val >= 0.0
  {
    SquareNonNegative(v.x.val);
    SquareNonNegative(v.y.val);
    SquareNonNegative(v.z.val);
  }

  /** A zero-length vector is returned unchanged by `normalized`. */
  lemma NormalizedOfZeroLength(math: HostMath, v: Vec)
    requires Magnitude(math, v) == Real(0.0)
    ensures Normalized(math, v) == v
  {
  }

  /** The zero vector normalizes to itself, whatever `Math.sqrt(0)` returns. */
  lemma NormalizedOfZero(math: HostMath)
    ensures Normalized(math, Zero) == Zero
  {
    forall k: real
      ensures Scaled(Zero, Real(k)) == Zero
    {
      assert 0.0 * k == 0.0;
    }
  }

  /** Under a sound square root, normalizing a vector of non-zero magnitude yields unit length. */
  lemma NormalizedHasUnitLength(math: HostMath, v: Vec)
    requires SqrtSound(math) && !HasNaN(v) && Magnitude(math, v) != Real(0.0)
    ensures LengthSq(Normalized(math, v)) == Real(1.0)
  {
    LengthSqNonNegative(v);
    var x, y, z := v.x.val, v.y.val, v.z.val;
    var s := LengthSq(v).val;
    assert s == x * x + y * y + z * z;
    var l := math.sqrt(s);
    assert l * l == s;
    assert l != 0.0;
    var k := 1.0 / l;
    assert k * l == 1.0;
    assert Normalized(math, v) == Vec(Real(x * k), Real(y * k), Real(z * k));
    calc {
      (x * k) * (x * k) + (y * k) * (y * k) + (z * k) * (z * k);
      (k * k) * s;
      (k * k) * (l * l);
      (k * l) * (k * l);
      1.0;
    }
  }

  /** A `Vector3` object; `add`, `sub`, `scale` and `normalize` change it in place and return it. */
  class Vector3 {
    var x: Number
    var y: Number
    var z: Number

    constructor (x: Number, y: Number, z: Number)
      ensures Value() == Vec(x, y, z)
    {
      this.x, this.y, this.z := x, y, z;
    }

    function Value(): Vec
      reads this
    {
      Vec(x, y, z)
    }

    /** `this.add(v)`: adds `v` componentwise to this vector and returns this vector. */
    method Add(v: Vector3) returns (r: Vector3)
      modifies this
      ensures r == this
      ensures Value() == Sum(old(Value()), old(v.Value()))
    {
      x := Plus(x, v.x);
      y := Plus(y, v.y);
      z := Plus(z, v.z);
      r := this;
    }

    /** `this.sub(v)`: subtracts `v` componentwise and returns this vector. */
    method Sub(v: Vector3) returns (r: Vector3)
      modifies this
      ensures r == this
      ensures Value() == Diff(old(Value()), old(v.Value()))
    {
      x := Minus(x, v.x);
      y := Minus(y, v.y);
      z := Minus(z, v.z);
      r := this;
    }

    /** `this.scale(n)`: multiplies every component by `n` and returns this vector. */
    method Scale(n: Number) returns (r: Vector3)
      modifies this
      ensures r == this
      ensures Value() == Scaled(old(Value()), n)
    {
      x := Times(x, n);
      y := Times(y, n);
      z := Times(z, n);
      r := this;
    }

    /** `this.normalize()`: a zero-length vector is left untouched; otherwise
        every component is multiplied by `1 / magnitude`. Returns this vector. */
    method Normalize(math: HostMath) returns (r: Vector3)
      modifies this
      ensures r == this
      ensures Value() == Normalized(math, old(Value()))
      ensures Magnitude(math, old(Value())) == Real(0.0) ==> unchanged(this)
    {
      var len := Magnitude(math, Value());
      if len == Real(0.0) {
        return this;
      }
      var num := if len.NaN? then NaN else Real(1.0 / len.val);
      x := Times(x, num);
      y := Times(y, num);
      z := Times(z, num);
      r := this;
    }
  }

  /** `Vector3.copy(v)`: a new vector with the same components; `v` is not touched. */
  method Copy(v: Vector3) returns (r: Vector3)
    ensures fresh(r) && r.Value() == v.Value()
  {
    r := new Vector3(v.x, v.y, v.z);
  }

  /** `Vector3.isNaN(v)`: true for a missing vector or one with a NaN
      component; a vector that passes holds three reals. */
  predicate IsNaN(v: Vector3?)
    reads v
    ensures !IsNaN(v) ==>
              v != null && v.x.Real? && v.y.Real? && v.z.Real? && v.Value() == RealVec(v.x.val, v.y.val, v.z.val)
    ensures forall x: real, y: real, z: real :: v != null && v.Value() == RealVec(x, y, z) ==> !IsNaN(v)
  {
    v == null || HasNaN(v.Value())
  }
}
