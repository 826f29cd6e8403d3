/**
  Collision shapes and `scale_shape`. A shape is a host object that the
  plugin rescales in place through its setters; its parameters are one
  of the host's concrete shape kinds.
 */
module Shapes {
  import opened Linear

  /** The parameters of a collision shape, one case per host shape class. */
  datatype ShapeData =
    | Sphere(radius: real)
    | Box(extents: Vec3)
    | Capsule(radius: real, height: real)
    | Cylinder(radius: real, height: real)
    | ConcavePolygon(faces: seq<Vec3>)
    | ConvexPolygon(points: seq<Vec3>)
      /** Plane, ray, height map and other kinds that scaling does not touch. */
    | OtherShape(kind: nat)

  /** A host shape object (`Ref<Shape>`), shared and updated in place. */
  class Shape {
    var data: ShapeData

    constructor (d: ShapeData)
      ensures data == d
    {
      data := d;
    }
  }

  /** The parameters `scale_shape` leaves in a shape that had `d`. */
  function ScaledData(d: ShapeData, s: Vec3): ShapeData {
    match d
    case Sphere(r) => Sphere(r * MaxAxis(s))
    case Box(e) => Box(e.Mul(s))
    case Capsule(r, h) => Capsule(r * MaxAxis(s), h * MaxAxis(s))
    case Cylinder(r, h) => Cylinder(r * MaxAxis(s), h * MaxAxis(s))
    case ConcavePolygon(f) => ConcavePolygon(BasisXformAll(Diagonal(s), f))
    case ConvexPolygon(p) => ConvexPolygon(BasisXformAll(Diagonal(s), p))
    case OtherShape(_) => d
  }

  /** The loop `arr.set(i, b.xform(arr[i]))` over a point list. */
  method XformEach(b: Basis, arr: seq<Vec3>) returns (r: seq<Vec3>)
    ensures |r| == |arr|
    ensures forall i :: 0 <= i < |arr| ==> r[i] == b.Xform(arr[i])
  {
    r := arr;
    var i := 0;
    while i < |r|
      invariant 0 <= i <= |r| == |arr|
      invariant forall k :: 0 <= k < i ==> r[k] == b.Xform(arr[k])
      invariant forall k :: i <= k < |r| ==> r[k] == arr[k]
    {
      r := r[i := b.Xform(r[i])];
      i := i + 1;
    }
  }

  /**
    `scale_shape`: a null shape is handed back untouched; otherwise the
    shape is rescaled according to its kind and the same shape is returned.
   */
  method ScaleShape(shape: Shape?, s: Vec3) returns (r: Shape?)
    modifies shape
    ensures r == shape
    ensures shape != null ==> shape.data == ScaledData(old(shape.data), s)
  {
    if shape == null {
      return shape;
    }
    if shape.data.Sphere? {
      shape.data := Sphere(shape.data.radius * MaxAxis(s));
    }
    if shape.data.Box? {
      shape.data := Box(shape.data.extents.Mul(s));
    }
    if shape.data.Capsule? {
      var sc := MaxAxis(s);
      shape.data := Capsule(shape.data.radius * sc, shape.data.height * sc);
    }
    if shape.data.Cylinder? {
      var sc := MaxAxis(s);
      shape.data := Cylinder(shape.data.radius * sc, shape.data.height * sc);
    }
    if shape.data.ConcavePolygon? {
      var arr := XformEach(Diagonal(s), shape.data.faces);
      assert arr == BasisXformAll(Diagonal(s), old(shape.data).faces);
      shape.data := ConcavePolygon(arr);
    }
    if shape.data.ConvexPolygon? {
      var arr := XformEach(Diagonal(s), shape.data.points);
      assert arr == BasisXformAll(Diagonal(s), old(shape.data).points);
      shape.data := ConvexPolygon(arr);
    }
    return shape;
  }

  /** Scaling never changes a shape's kind. */
  lemma ScalingKeepsKind(d: ShapeData, s: Vec3)
    ensures ScaledData(d, s).Sphere? == d.Sphere?
    ensures ScaledData(d, s).Box? == d.Box?
    ensures ScaledData(d, s).Capsule? == d.Capsule?
    ensures ScaledData(d, s).Cylinder? == d.Cylinder?
    ensures ScaledData(d, s).ConcavePolygon? == d.ConcavePolygon?
    ensures ScaledData(d, s).ConvexPolygon? == d.ConvexPolygon?
    ensures d.OtherShape? ==> ScaledData(d, s) == d
  {
  }

  /**
    Face and hull points keep their count and order, and each point is
    scaled axis by axis: `(s.x * p.x, s.y * p.y, s.z * p.z)`.
   */
  lemma PolygonScalingIsComponentwise(ps: seq<Vec3>, s: Vec3)
    ensures ScaledData(ConcavePolygon(ps), s) == ConcavePolygon(seq(|ps|, i requires 0 <= i < |ps| => s.Mul(ps[i])))
    ensures ScaledData(ConvexPolygon(ps), s) == ConvexPolygon(seq(|ps|, i requires 0 <= i < |ps| => s.Mul(ps[i])))
  {
    forall i | 0 <= i < |ps| ensures Diagonal(s).Xform(ps[i]) == s.Mul(ps[i]) {
      DiagonalIsComponentwise(s, ps[i]);
    }
  }

  /** The default scale `(1, 1, 1)` leaves every shape as it was. */
  lemma UnitScaleKeepsShape(d: ShapeData)
    ensures ScaledData(d, Vec3(1.0, 1.0, 1.0)) == d
  {
    var one := Vec3(1.0, 1.0, 1.0);
    match d
    case ConcavePolygon(f) =>
      PolygonScalingIsComponentwise(f, one);
      assert seq(|f|, i requires 0 <= i < |f| => one.Mul(f[i])) == f;
    case ConvexPolygon(p) =>
      PolygonScalingIsComponentwise(p, one);
      assert seq(|p|, i requires 0 <= i < |p| => one.Mul(p[i])) == p;
    case _ =>
  }

  /**
    A sphere is scaled by its worst-case axis: for a non-negative radius
    the new radius is at least the radius stretched along any one axis.
   */
  lemma SphereCoversEveryAxis(r: real, s: Vec3)
    requires r >= 0.0
    ensures var r' := ScaledData(Sphere(r), s).radius;
      r' >= r * s.x && r' >= r * s.y && r' >= r * s.z
  {
    var m := MaxAxis(s);
    assert r * m - r * s.x == r * (m - s.x);
    assert r * m - r * s.y == r * (m - s.y);
    assert r * m - r * s.z == r * (m - s.z);
  }

  /**
    Capsules and cylinders take one factor for both dimensions, so the
    ratio of radius to height is kept.
   */
  lemma CapsuleAndCylinderKeepProportions(r: real, h: real, s: Vec3)
    ensures var c := ScaledData(Capsule(r, h), s);
      c.radius * h == c.height * r && c.radius == r * MaxAxis(s) && c.height == h * MaxAxis(s)
    ensures var c := ScaledData(Cylinder(r, h), s);
      c.radius * h == c.height * r && c.radius == r * MaxAxis(s) && c.height == h * MaxAxis(s)
  {
    var m := MaxAxis(s);
    assert r * m * h == h * m * r;
  }

  /** Box extents are multiplied axis by axis and can be recovered by dividing back. */
  lemma BoxScalingIsInvertible(e: Vec3, s: Vec3)
    requires s.x != 0.0 && s.y != 0.0 && s.z != 0.0
    ensures ScaledData(ScaledData(Box(e), s), Vec3(1.0 / s.x, 1.0 / s.y, 1.0 / s.z)) == Box(e)
  {
    assert e.x * s.x * (1.0 / s.x) == e.x;
    assert e.y * s.y * (1.0 / s.y) == e.y;
    assert e.z * s.z * (1.0 / s.z) == e.z;
  }
}
