/**
  `get_mesh`: the exported mesh record of one mesh instance, with the
  collision shapes its collider type asks for. The host's geometry
  routines are taken as given functions (`Host`).
 */
module Colliders {
  import opened Optional
  import opened Linear
  import opened ImportOptions
  import opened Surface
  import opened Shapes

  /** A host mesh: its surfaces, each a surface array. */
  datatype ArrayMesh = ArrayMesh(surfaces: seq<SurfaceArrays>)

  /** A mesh with at least one surface, which `get_mesh` reads as surface 0. */
  type SurfacedMesh = m: ArrayMesh | |m.surfaces| > 0 witness ArrayMesh([seq(ArrayMax, _ => Nil)])

  /** An axis-aligned bounding box: its minimum corner and its size. */
  datatype Aabb = Aabb(position: Vec3, size: Vec3)

  /**
    The host routines the collider policy calls: the trimesh faces and the
    convex hull points a mesh yields (none when the host returns a null
    shape), its convex decomposition, and its bounding box.
   */
  datatype Host = Host(
    createTrimesh: ArrayMesh -> Option<seq<Vec3>>,
    createConvex: ArrayMesh -> Option<seq<Vec3>>,
    convexDecompose: ArrayMesh -> seq<seq<Vec3>>,
    getAabb: ArrayMesh -> Aabb)

  /** A collision shape's parameters with its local placement. */
  datatype PlacedShape = PlacedShape(transform: Transform, shape: ShapeData)

  /** The value of an exported mesh record: its surface and its collision shapes, in order. */
  datatype ExportRecord = ExportRecord(arrays: seq<Slot>, collisionShapes: seq<PlacedShape>)

  /** An entry of a mesh record: a placement and a reference to a shape object. */
  datatype CollisionShape = CollisionShape(transform: Transform, shape: Shape)

  /** The parameters the referenced shapes hold now, in order. */
  function Placed(cs: seq<CollisionShape>): (r: seq<PlacedShape>)
    reads set k | 0 <= k < |cs| :: cs[k].shape
    ensures |r| == |cs|
    ensures forall k :: 0 <= k < |cs| ==> r[k] == PlacedShape(cs[k].transform, cs[k].shape.data)
  {
    if cs == [] then []
    else Placed(cs[..|cs| - 1]) + [PlacedShape(cs[|cs| - 1].transform, cs[|cs| - 1].shape.data)]
  }

  /** The host's MeshDataResource: a surface array and a list of collision shapes. */
  class MeshDataResource {
    var arrays: seq<Slot>
    var collisionShapes: seq<CollisionShape>

    constructor ()
      ensures arrays == [] && collisionShapes == []
    {
      arrays := [];
      collisionShapes := [];
    }

    method SetArray(a: seq<Slot>)
      modifies this
      ensures arrays == a && collisionShapes == old(collisionShapes)
    {
      arrays := a;
    }

    method AddCollisionShape(t: Transform, s: Shape)
      modifies this
      ensures collisionShapes == old(collisionShapes) + [CollisionShape(t, s)]
      ensures arrays == old(arrays)
    {
      collisionShapes := collisionShapes + [CollisionShape(t, s)];
    }

    function ShapeObjects(): set<Shape>
      reads this
    {
      set k | 0 <= k < |collisionShapes| :: collisionShapes[k].shape
    }

    /** What saving this record writes: its surface and its shapes' current parameters. */
    function Export(): ExportRecord
      reads this, ShapeObjects()
    {
      ExportRecord(arrays, Placed(collisionShapes))
    }
  }

  /** `aabb.position + size / 2.0`: the centre every bounding shape is placed at. */
  function Center(aabb: Aabb): Vec3 {
    aabb.position.Plus(aabb.size.Div(2.0))
  }

  function BoxFit(aabb: Aabb): PlacedShape {
    PlacedShape(Transform(Identity, Center(aabb)), Box(aabb.size.Times(0.5)))
  }

  function CapsuleFit(aabb: Aabb): PlacedShape {
    var size := aabb.size;
    PlacedShape(Transform(QuarterTurnX, Center(aabb)), Capsule(Min(size.x, size.z) * 0.5, size.y * 0.5))
  }

  function CylinderFit(aabb: Aabb): PlacedShape {
    var size := aabb.size;
    PlacedShape(Transform(Identity, Center(aabb)), Cylinder(Min(size.x, size.z) * 0.5, size.y * 0.5))
  }

  function SphereFit(aabb: Aabb): PlacedShape {
    var size := aabb.size;
    PlacedShape(Transform(Identity, Center(aabb)), Sphere(Min(size.x, Min(size.y, size.z)) * 0.5))
  }

  /** One scaled hull per decomposition piece, each at the identity placement. */
  function DecompositionShapes(pieces: seq<seq<Vec3>>, scale: Vec3): (r: seq<PlacedShape>)
    ensures |r| == |pieces|
  {
    seq(|pieces|, j requires 0 <= j < |pieces| =>
      PlacedShape(IdentityTransform, ScaledData(ConvexPolygon(pieces[j]), scale)))
  }

  /**
    The collision shapes `get_mesh` attaches for a collider type. `mesh` is
    the imported mesh, `m` the mesh rebuilt from the transformed surface:
    the trimesh and the bounding box come from `m`, the convex shapes from
    `mesh`. Trimesh and convex shapes are scaled, bounding shapes are not.
   */
  function ColliderShapes(collider: ColliderType, mesh: ArrayMesh, m: ArrayMesh, scale: Vec3, host: Host): seq<PlacedShape> {
    match collider
    case NoCollider => []
    case TrimeshCollisionShape =>
      (match host.createTrimesh(m)
       case None => []
       case Some(faces) => [PlacedShape(IdentityTransform, ScaledData(ConcavePolygon(faces), scale))])
    case SingleConvexCollisionShape =>
      (match host.createConvex(mesh)
       case None => []
       case Some(points) => [PlacedShape(IdentityTransform, ScaledData(ConvexPolygon(points), scale))])
    case MultipleConvexCollisionShapes => DecompositionShapes(host.convexDecompose(mesh), scale)
    case _ => [BoundingFit(collider, host.getAabb(m))]
  }

  /** The record `get_mesh` builds for a valid mesh. */
  function MeshExport(mesh: SurfacedMesh, opts: Options, collider: ColliderType, scale: Vec3, host: Host): ExportRecord {
    var arrays := TransformedArrays(mesh.surfaces[0], opts);
    ExportRecord(arrays, ColliderShapes(collider, mesh, ArrayMesh([arrays]), scale, host))
  }

  /** The `convex_decompose` branch: scale every piece, then attach them all in order. */
  method AttachDecomposition(mdr: MeshDataResource, pieces: seq<seq<Vec3>>, scale: Vec3)
    requires mdr.collisionShapes == []
    modifies mdr
    ensures mdr.arrays == old(mdr.arrays)
    ensures Placed(mdr.collisionShapes) == DecompositionShapes(pieces, scale)
  {
    // the host hands back one new convex shape per piece
    var shapes: seq<Shape> := [];
    var j := 0;
    while j < |pieces|
      invariant 0 <= j <= |pieces| && |shapes| == j
      invariant forall k :: 0 <= k < j ==> fresh(shapes[k]) && shapes[k].data == ConvexPolygon(pieces[k])
      invariant forall a, b :: 0 <= a < b < j ==> shapes[a] != shapes[b]
      invariant mdr.arrays == old(mdr.arrays) && mdr.collisionShapes == []
    {
      var s := new Shape(ConvexPolygon(pieces[j]));
      shapes := shapes + [s];
      j := j + 1;
    }
    j := 0;
    while j < |shapes|
      invariant 0 <= j <= |shapes|
      invariant forall k :: 0 <= k < |shapes| ==> fresh(shapes[k])
      invariant forall k :: 0 <= k < |shapes| ==>
        shapes[k].data == if k < j then ScaledData(ConvexPolygon(pieces[k]), scale) else ConvexPolygon(pieces[k])
      invariant mdr.arrays == old(mdr.arrays) && mdr.collisionShapes == []
      invariant forall a, b :: 0 <= a < b < |shapes| ==> shapes[a] != shapes[b]
    {
      var _ := ScaleShape(shapes[j], scale);
      j := j + 1;
    }
    j := 0;
    while j < |shapes|
      invariant 0 <= j <= |shapes|
      invariant forall k :: 0 <= k < |shapes| ==> fresh(shapes[k])
      invariant forall k :: 0 <= k < |shapes| ==> shapes[k].data == ScaledData(ConvexPolygon(pieces[k]), scale)
      invariant mdr.arrays == old(mdr.arrays)
      invariant |mdr.collisionShapes| == j
      invariant forall k :: 0 <= k < j ==> mdr.collisionShapes[k] == CollisionShape(IdentityTransform, shapes[k])
    {
      mdr.AddCollisionShape(IdentityTransform, shapes[j]);
      j := j + 1;
    }
    assert Placed(mdr.collisionShapes) == DecompositionShapes(pieces, scale);
  }

  /** The trimesh and single-convex branches: attach the host's shape, scaled, unless it is null. */
  method AttachHostShape(mdr: MeshDataResource, built: Option<ShapeData>, scale: Vec3)
    requires mdr.collisionShapes == []
    modifies mdr
    ensures mdr.arrays == old(mdr.arrays)
    ensures Placed(mdr.collisionShapes)
         == if built.None? then [] else [PlacedShape(IdentityTransform, ScaledData(built.value, scale))]
  {
    if built.Some? {
      var shape := new Shape(built.value);
      var scaled := ScaleShape(shape, scale);
      mdr.AddCollisionShape(IdentityTransform, scaled);
    }
  }

  predicate IsBounding(collider: ColliderType) {
    collider.ApproximatedBox? || collider.ApproximatedCapsule?
    || collider.ApproximatedCylinder? || collider.ApproximatedSphere?
  }

  /** The fit a bounding collider type asks for. */
  function BoundingFit(collider: ColliderType, aabb: Aabb): PlacedShape
    requires IsBounding(collider)
  {
    match collider
    case ApproximatedBox => BoxFit(aabb)
    case ApproximatedCapsule => CapsuleFit(aabb)
    case ApproximatedCylinder => CylinderFit(aabb)
    case ApproximatedSphere => SphereFit(aabb)
  }

  /** A new shape object with parameters `d`, attached to an empty record at placement `t`. */
  method AttachNewShape(mdr: MeshDataResource, t: Transform, d: ShapeData)
    requires mdr.collisionShapes == []
    modifies mdr
    ensures mdr.arrays == old(mdr.arrays)
    ensures Placed(mdr.collisionShapes) == [PlacedShape(t, d)]
  {
    var shape := new Shape(d);
    mdr.AddCollisionShape(t, shape);
  }

  /** The four bounding branches: one new, unscaled shape fitted to the box and placed at its centre. */
  method AttachBoundingShape(mdr: MeshDataResource, collider: ColliderType, aabb: Aabb)
    requires IsBounding(collider) && mdr.collisionShapes == []
    modifies mdr
    ensures mdr.arrays == old(mdr.arrays)
    ensures Placed(mdr.collisionShapes) == [BoundingFit(collider, aabb)]
  {
    var size := aabb.size;
    var d: ShapeData;
    var t: Transform;
    if collider == ApproximatedBox {
      d := Box(size.Times(0.5));
      var pos := aabb.position;
      pos := pos.Plus(size.Div(2.0));
      t := Transform(Identity, pos);
    } else if collider == ApproximatedCapsule {
      d := Capsule(Min(size.x, size.z) * 0.5, size.y * 0.5);
      var pos := aabb.position;
      pos := pos.Plus(size.Div(2.0));
      t := Transform(QuarterTurnX, pos);
    } else if collider == ApproximatedCylinder {
      d := Cylinder(Min(size.x, size.z) * 0.5, size.y * 0.5);
      var pos := aabb.position;
      pos := pos.Plus(size.Div(2.0));
      t := Transform(Identity, pos);
    } else {
      d := Sphere(Min(size.x, Min(size.y, size.z)) * 0.5);
      var mid := aabb.size.Div(2.0);
      t := Transform(Identity, aabb.position.Plus(mid));
    }
    AttachNewShape(mdr, t, d);
  }

  /**
    `get_mesh`: no record for a missing mesh; otherwise a fresh record
    holding the transformed surface 0 and the shapes of `ColliderShapes`.
   */
  method GetMesh(mesh: Option<SurfacedMesh>, opts: Options, collider: ColliderType, scale: Vec3, host: Host)
    returns (mdr: MeshDataResource?)
    ensures mesh.None? ==> mdr == null
    ensures mesh.Some? ==>
      mdr != null && fresh(mdr) && mdr.Export() == MeshExport(mesh.value, opts, collider, scale, host)
  {
    if mesh.None? {
      return null;
    }
    var mdr' := new MeshDataResource();
    var arrays := ApplyTransforms(mesh.value.surfaces[0], opts);
    mdr'.SetArray(arrays);
    // the mesh rebuilt from `mdr->get_array()`
    var m := ArrayMesh([arrays]);
    ghost var expected := ColliderShapes(collider, mesh.value, m, scale, host);
    if collider == TrimeshCollisionShape {
      var faces := host.createTrimesh(m);
      AttachHostShape(mdr', if faces.Some? then Some(ConcavePolygon(faces.value)) else None, scale);
    } else if collider == SingleConvexCollisionShape {
      var points := host.createConvex(mesh.value);
      AttachHostShape(mdr', if points.Some? then Some(ConvexPolygon(points.value)) else None, scale);
    } else if collider == MultipleConvexCollisionShapes {
      AttachDecomposition(mdr', host.convexDecompose(mesh.value), scale);
    } else if IsBounding(collider) {
      AttachBoundingShape(mdr', collider, host.getAabb(m));
    } else {
      assert Placed(mdr'.collisionShapes) == [];
    }
    assert Placed(mdr'.collisionShapes) == expected;
    assert mdr'.arrays == TransformedArrays(mesh.value.surfaces[0], opts);
    return mdr';
  }

  /** How many shapes each collider type attaches. */
  lemma ColliderCounts(collider: ColliderType, mesh: ArrayMesh, m: ArrayMesh, scale: Vec3, host: Host)
    ensures var n := |ColliderShapes(collider, mesh, m, scale, host)|;
      && (collider == NoCollider ==> n == 0)
      && (collider == TrimeshCollisionShape ==> n == if host.createTrimesh(m).None? then 0 else 1)
      && (collider == SingleConvexCollisionShape ==> n == if host.createConvex(mesh).None? then 0 else 1)
      && (collider == MultipleConvexCollisionShapes ==> n == |host.convexDecompose(mesh)|)
      && (IsBounding(collider) ==> n == 1)
  {
  }

  /**
    Trimesh, single-convex and decomposition shapes sit at the identity
    placement, with every face or hull point scaled axis by axis, in order.
   */
  lemma HostShapesAreScaledInPlace(collider: ColliderType, mesh: ArrayMesh, m: ArrayMesh, s: Vec3, host: Host)
    ensures collider == TrimeshCollisionShape && host.createTrimesh(m).Some? ==>
      var f := host.createTrimesh(m).value;
      ColliderShapes(collider, mesh, m, s, host)
        == [PlacedShape(IdentityTransform, ConcavePolygon(seq(|f|, i requires 0 <= i < |f| => s.Mul(f[i]))))]
    ensures collider == SingleConvexCollisionShape && host.createConvex(mesh).Some? ==>
      var p := host.createConvex(mesh).value;
      ColliderShapes(collider, mesh, m, s, host)
        == [PlacedShape(IdentityTransform, ConvexPolygon(seq(|p|, i requires 0 <= i < |p| => s.Mul(p[i]))))]
    ensures collider == MultipleConvexCollisionShapes ==>
      var pieces := host.convexDecompose(mesh);
      forall j :: 0 <= j < |pieces| ==>
        ColliderShapes(collider, mesh, m, s, host)[j]
          == PlacedShape(IdentityTransform,
               ConvexPolygon(seq(|pieces[j]|, i requires 0 <= i < |pieces[j]| => s.Mul(pieces[j][i]))))
  {
    if host.createTrimesh(m).Some? {
      PolygonScalingIsComponentwise(host.createTrimesh(m).value, s);
    }
    if host.createConvex(mesh).Some? {
      PolygonScalingIsComponentwise(host.createConvex(mesh).value, s);
    }
    var pieces := host.convexDecompose(mesh);
    forall j | 0 <= j < |pieces|
      ensures ScaledData(ConvexPolygon(pieces[j]), s)
           == ConvexPolygon(seq(|pieces[j]|, i requires 0 <= i < |pieces[j]| => s.Mul(pieces[j][i])))
    {
      PolygonScalingIsComponentwise(pieces[j], s);
    }
  }

  /**
    The convex shapes are built from the imported mesh, not from the
    transformed one: offset and basis do not reach them.
   */
  lemma ConvexShapesIgnoreTransform(mesh: SurfacedMesh, o1: Options, o2: Options, collider: ColliderType, scale: Vec3, host: Host)
    requires collider == SingleConvexCollisionShape || collider == MultipleConvexCollisionShapes
    ensures MeshExport(mesh, o1, collider, scale, host).collisionShapes
         == MeshExport(mesh, o2, collider, scale, host).collisionShapes
  {
  }

  /** Bounding shapes are not rescaled: the scale factor does not reach them. */
  lemma BoundingShapesIgnoreScale(collider: ColliderType, mesh: ArrayMesh, m: ArrayMesh, s1: Vec3, s2: Vec3, host: Host)
    requires IsBounding(collider)
    ensures ColliderShapes(collider, mesh, m, s1, host) == ColliderShapes(collider, mesh, m, s2, host)
    ensures ColliderShapes(collider, mesh, m, s1, host)[0].transform.origin == Center(host.getAabb(m))
  {
  }

  /** The fitted box is the bounding box itself: centre minus extents is its minimum corner, centre plus extents its maximum. */
  lemma BoxFitSpansAabb(aabb: Aabb)
    ensures var b := BoxFit(aabb);
      && b.shape.Box? && b.transform.basis == Identity
      && b.transform.origin.Minus(b.shape.extents) == aabb.position
      && b.transform.origin.Plus(b.shape.extents) == aabb.position.Plus(aabb.size)
  {
  }

  /** Whether a ball of radius r about c stays within the box along every axis. */
  predicate BallWithin(c: Vec3, r: real, aabb: Aabb) {
    var lo, hi := aabb.position, aabb.position.Plus(aabb.size);
    lo.x <= c.x - r && c.x + r <= hi.x
    && lo.y <= c.y - r && c.y + r <= hi.y
    && lo.z <= c.z - r && c.z + r <= hi.z
  }

  /** For a box of non-negative size, the fitted sphere lies inside it. */
  lemma SphereFitInsideAabb(aabb: Aabb)
    requires aabb.size.NonNegative()
    ensures var sp := SphereFit(aabb);
      sp.shape.Sphere? && sp.shape.radius >= 0.0 && BallWithin(sp.transform.origin, sp.shape.radius, aabb)
  {
  }

  /**
    Capsule and cylinder share their dimensions: the radius fits the box's
    x/z footprint and the height is half its y extent. Only the capsule is
    turned a quarter about X.
   */
  lemma CapsuleAndCylinderFits(aabb: Aabb)
    requires aabb.size.NonNegative()
    ensures var cap, cyl := CapsuleFit(aabb), CylinderFit(aabb);
      && cap.shape.Capsule? && cyl.shape.Cylinder?
      && cap.shape.radius == cyl.shape.radius && cap.shape.height == cyl.shape.height
      && cap.transform == Transform(QuarterTurnX, Center(aabb))
      && cyl.transform == Transform(Identity, Center(aabb))
      && 0.0 <= cyl.shape.radius
      && 2.0 * cyl.shape.radius <= aabb.size.x && 2.0 * cyl.shape.radius <= aabb.size.z
      && (2.0 * cyl.shape.radius == aabb.size.x || 2.0 * cyl.shape.radius == aabb.size.z)
      && 2.0 * cyl.shape.height == aabb.size.y
  {
  }

  /** A box of non-negative size gives non-negative shape parameters. */
  lemma BoundingParametersNonNegative(aabb: Aabb)
    requires aabb.size.NonNegative()
    ensures BoxFit(aabb).shape.extents.NonNegative()
    ensures CapsuleFit(aabb).shape.radius >= 0.0 && CapsuleFit(aabb).shape.height >= 0.0
    ensures CylinderFit(aabb).shape.radius >= 0.0 && CylinderFit(aabb).shape.height >= 0.0
    ensures SphereFit(aabb).shape.radius >= 0.0
  {
  }

  /** A box at the origin of size (2, 4, 6): box extents (1, 2, 3) and a unit sphere, both centred at (1, 2, 3). */
  lemma BoundingFitExample()
    ensures var aabb := Aabb(Zero, Vec3(2.0, 4.0, 6.0));
      && BoxFit(aabb) == PlacedShape(Transform(Identity, Vec3(1.0, 2.0, 3.0)), Box(Vec3(1.0, 2.0, 3.0)))
      && SphereFit(aabb) == PlacedShape(Transform(Identity, Vec3(1.0, 2.0, 3.0)), Sphere(1.0))
  {
  }
}
