/** A value that may be absent: a null reference, a failed host call. */
module Optional {
  datatype Option<+T> = None | Some(value: T)
}

/**
  The host engine's small linear-algebra types over exact reals: Vector3, Basis
  (three rows) and Transform (basis plus origin). Floating-point rounding of
  `real_t` is not modelled.
 */
module Linear {

  datatype Vec3 = Vec3(x: real, y: real, z: real) {

    function Plus(o: Vec3): Vec3 {
      Vec3(x + o.x, y + o.y, z + o.z)
    }

    function Minus(o: Vec3): Vec3 {
      Vec3(x - o.x, y - o.y, z - o.z)
    }

    /** `Vector3 * real` */
    function Times(k: real): Vec3 {
      Vec3(x * k, y * k, z * k)
    }

    /** `Vector3 / real` */
    function Div(k: real): Vec3
      requires k != 0.0
    {
      Vec3(x / k, y / k, z / k)
    }

    /** `Vector3 * Vector3`, component by component */
    function Mul(o: Vec3): Vec3 {
      Vec3(x * o.x, y * o.y, z * o.z)
    }

    function Dot(o: Vec3): real {
      x * o.x + y * o.y + z * o.z
    }

    predicate NonNegative() {
      x >= 0.0 && y >= 0.0 && z >= 0.0
    }
  }

  const Zero := Vec3(0.0, 0.0, 0.0)

  /** The host's MAX macro: `a > b ? a : b`. */
  function Max(a: real, b: real): (r: real)
    ensures r >= a && r >= b && (r == a || r == b)
  {
    if a > b then a else b
  }

  /** The host's MIN macro: `a < b ? a : b`. */
  function Min(a: real, b: real): (r: real)
    ensures r <= a && r <= b && (r == a || r == b)
  {
    if a < b then a else b
  }

  /** `MAX(s.x, MAX(s.y, s.z))`: the largest axis factor of a scale. */
  function MaxAxis(s: Vec3): (m: real)
    ensures m >= s.x && m >= s.y && m >= s.z
    ensures m == s.x || m == s.y || m == s.z
  {
    Max(s.x, Max(s.y, s.z))
  }

  /** A 3x3 matrix stored by rows, as the host's Basis is. */
  datatype Basis = Basis(row0: Vec3, row1: Vec3, row2: Vec3) {

    /** `Basis::xform`: the matrix-vector product. */
    function Xform(v: Vec3): Vec3 {
      Vec3(row0.Dot(v), row1.Dot(v), row2.Dot(v))
    }
  }

  const Identity := Basis(Vec3(1.0, 0.0, 0.0), Vec3(0.0, 1.0, 0.0), Vec3(0.0, 0.0, 1.0))

  /** `Basis().scaled(s)`: the identity with its rows multiplied by the axis factors. */
  function Diagonal(s: Vec3): Basis {
    Basis(Vec3(s.x, 0.0, 0.0), Vec3(0.0, s.y, 0.0), Vec3(0.0, 0.0, s.z))
  }

  /** `Basis().rotated(Vector3(1, 0, 0), M_PI_2)`, with the exact sine and cosine of a quarter turn. */
  const QuarterTurnX := Basis(Vec3(1.0, 0.0, 0.0), Vec3(0.0, 0.0, -1.0), Vec3(0.0, 1.0, 0.0))

  /** An affine map: `basis * v + origin`. */
  datatype Transform = Transform(basis: Basis, origin: Vec3) {

    /** `Transform::xform` on a point. */
    function Xform(v: Vec3): Vec3 {
      basis.Xform(v).Plus(origin)
    }
  }

  /** `Transform()`: identity basis, origin at zero. */
  const IdentityTransform := Transform(Identity, Zero)

  /** A transform applied to every point of a list, in order. */
  function XformAll(t: Transform, ps: seq<Vec3>): (r: seq<Vec3>)
    ensures |r| == |ps|
  {
    seq(|ps|, i requires 0 <= i < |ps| => t.Xform(ps[i]))
  }

  /** A basis applied to every vector of a list, in order: the transform with that basis and no offset. */
  function BasisXformAll(b: Basis, ps: seq<Vec3>): (r: seq<Vec3>)
    ensures |r| == |ps|
    ensures forall i :: 0 <= i < |ps| ==> r[i] == b.Xform(ps[i])
  {
    XformAll(Transform(b, Zero), ps)
  }

  lemma IdentityFixesEveryVector(v: Vec3)
    ensures Identity.Xform(v) == v
    ensures IdentityTransform.Xform(v) == v
  {
  }

  /** A scaled identity moves each coordinate by its own axis factor. */
  lemma DiagonalIsComponentwise(s: Vec3, p: Vec3)
    ensures Diagonal(s).Xform(p) == s.Mul(p)
  {
  }

  /** The linear part of a transform respects sums and multiples. */
  lemma XformIsLinear(b: Basis, u: Vec3, v: Vec3, k: real)
    ensures b.Xform(u.Plus(v)) == b.Xform(u).Plus(b.Xform(v))
    ensures b.Xform(u.Times(k)) == b.Xform(u).Times(k)
  {
  }
}
