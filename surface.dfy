/** The import options the plugin reads from its option map. */
module ImportOptions {
  import opened Linear

  /** Values of the "import_type" option, in the order of the enum's binding string. */
  const ImportSingle: int := 0
  const ImportSingleMerged: int := 1
  const ImportMultiple: int := 2

  /** The "collider_type" option. */
  datatype ColliderType =
    | NoCollider
    | TrimeshCollisionShape
    | SingleConvexCollisionShape
    | MultipleConvexCollisionShapes
    | ApproximatedBox
    | ApproximatedCapsule
    | ApproximatedCylinder
    | ApproximatedSphere

  /**
    `basis` is the host's `Basis(rotation).scaled(scale)`, built from the
    "rotation" and "scale" options; it is taken as given. `scale` is the
    "scale" option itself, which collider scaling uses on its own.
   */
  datatype Options = Options(
    importType: int,
    colliderType: ColliderType,
    offset: Vec3,
    basis: Basis,
    scale: Vec3)
}

/**
  The vertex/normal transform applied to a mesh surface before export.
  A surface is the host's fixed-length array of slots, one per kind of data.
 */
module Surface {
  import opened Linear
  import opened ImportOptions

  /** Slot indices of the host's surface array (Mesh::ArrayType). */
  const ArrayVertex := 0
  const ArrayNormal := 1
  const ArrayMax := 9

  /** What a slot holds: nothing, a Vector3 array, or other data (tangents, colours, UVs, bones, indices). */
  datatype Slot = Nil | Vec3Array(points: seq<Vec3>) | OtherData(id: int)

  type SurfaceArrays = s: seq<Slot> | |s| == ArrayMax witness seq(ArrayMax, _ => Nil)

  /** Reading a slot as a Vector3 array: anything else reads as the empty array. */
  function AsVec3Array(slot: Slot): seq<Vec3> {
    if slot.Vec3Array? then slot.points else []
  }

  /** The transform applied to vertices: `Transform(basis, offset)`. */
  function VertexTransform(opts: Options): Transform {
    Transform(opts.basis, opts.offset)
  }

  /** The surface `apply_transforms` leaves behind. */
  function TransformedArrays(arrays: SurfaceArrays, opts: Options): SurfaceArrays {
    var t := VertexTransform(opts);
    arrays[ArrayVertex := Vec3Array(XformAll(t, AsVec3Array(arrays[ArrayVertex])))]
          [ArrayNormal := Vec3Array(BasisXformAll(t.basis, AsVec3Array(arrays[ArrayNormal])))]
  }

  /**
    `apply_transforms`: each vertex goes through the full transform, each
    normal through its basis only, and both arrays are written back.
   */
  method ApplyTransforms(arrays: SurfaceArrays, opts: Options) returns (r: SurfaceArrays)
    ensures r == TransformedArrays(arrays, opts)
  {
    var t := Transform(opts.basis, opts.offset);
    var verts := AsVec3Array(arrays[ArrayVertex]);
    ghost var origVerts := verts;
    var i := 0;
    while i < |verts|
      invariant 0 <= i <= |verts| == |origVerts|
      invariant forall k :: 0 <= k < i ==> verts[k] == t.Xform(origVerts[k])
      invariant forall k :: i <= k < |verts| ==> verts[k] == origVerts[k]
    {
      var vert := verts[i];
      vert := t.Xform(vert);
      verts := verts[i := vert];
      i := i + 1;
    }
    var normals := AsVec3Array(arrays[ArrayNormal]);
    ghost var origNormals := normals;
    i := 0;
    while i < |normals|
      invariant 0 <= i <= |normals| == |origNormals|
      invariant forall k :: 0 <= k < i ==> normals[k] == t.basis.Xform(origNormals[k])
      invariant forall k :: i <= k < |normals| ==> normals[k] == origNormals[k]
    {
      var normal := normals[i];
      normal := t.basis.Xform(normal);
      normals := normals[i := normal];
      i := i + 1;
    }
    assert verts == XformAll(t, origVerts);
    assert normals == BasisXformAll(t.basis, origNormals);
    r := arrays[ArrayVertex := Vec3Array(verts)];
    r := r[ArrayNormal := Vec3Array(normals)];
  }

  /**
    Both arrays keep their length; vertex i becomes `basis * v + offset`,
    normal i becomes `basis * n`, with no offset and no renormalisation.
   */
  lemma TransformPointwise(arrays: SurfaceArrays, opts: Options)
    ensures var r := TransformedArrays(arrays, opts);
      var vs, ns := AsVec3Array(arrays[ArrayVertex]), AsVec3Array(arrays[ArrayNormal]);
      && r[ArrayVertex].Vec3Array? && r[ArrayNormal].Vec3Array?
      && |AsVec3Array(r[ArrayVertex])| == |vs|
      && |AsVec3Array(r[ArrayNormal])| == |ns|
      && (forall i :: 0 <= i < |vs| ==>
            AsVec3Array(r[ArrayVertex])[i] == opts.basis.Xform(vs[i]).Plus(opts.offset))
      && (forall i :: 0 <= i < |ns| ==>
            AsVec3Array(r[ArrayNormal])[i] == opts.basis.Xform(ns[i]))
  {
  }

  /** An absent or empty normal array comes out as an empty Vector3 array. */
  lemma EmptyNormalsStayEmpty(arrays: SurfaceArrays, opts: Options)
    requires AsVec3Array(arrays[ArrayNormal]) == []
    ensures TransformedArrays(arrays, opts)[ArrayNormal] == Vec3Array([])
  {
  }

  /** Only the vertex and normal slots are rewritten; tangents and the rest are untouched. */
  lemma OtherSlotsUnchanged(arrays: SurfaceArrays, opts: Options, k: nat)
    requires k < ArrayMax && k != ArrayVertex && k != ArrayNormal
    ensures TransformedArrays(arrays, opts)[k] == arrays[k]
  {
  }

  /** The offset never reaches the normals: two option sets that differ only in offset agree on them. */
  lemma NormalsIgnoreOffset(arrays: SurfaceArrays, o1: Options, o2: Options)
    requires o1.basis == o2.basis
    ensures TransformedArrays(arrays, o1)[ArrayNormal] == TransformedArrays(arrays, o2)[ArrayNormal]
  {
  }

  /** The identity basis with a zero offset keeps every vertex and normal. */
  lemma IdentityKeepsGeometry(arrays: SurfaceArrays, opts: Options)
    requires opts.basis == Identity && opts.offset == Zero
    ensures AsVec3Array(TransformedArrays(arrays, opts)[ArrayVertex]) == AsVec3Array(arrays[ArrayVertex])
    ensures AsVec3Array(TransformedArrays(arrays, opts)[ArrayNormal]) == AsVec3Array(arrays[ArrayNormal])
  {
    var r := TransformedArrays(arrays, opts);
    forall i | 0 <= i < |AsVec3Array(arrays[ArrayVertex])|
      ensures AsVec3Array(r[ArrayVertex])[i] == AsVec3Array(arrays[ArrayVertex])[i]
    {
      IdentityFixesEveryVector(AsVec3Array(arrays[ArrayVertex])[i]);
    }
    forall i | 0 <= i < |AsVec3Array(arrays[ArrayNormal])|
      ensures AsVec3Array(r[ArrayNormal])[i] == AsVec3Array(arrays[ArrayNormal])[i]
    {
      IdentityFixesEveryVector(AsVec3Array(arrays[ArrayNormal])[i]);
    }
  }

  /**
    Vertex transport is affine: once the offset is taken away, the vertex
    of a sum is the sum of the vertices' linear images.
   */
  lemma VertexTransportIsAffine(opts: Options, u: Vec3, v: Vec3)
    ensures VertexTransform(opts).Xform(u.Plus(v))
         == opts.basis.Xform(u).Plus(opts.basis.Xform(v)).Plus(opts.offset)
  {
    XformIsLinear(opts.basis, u, v, 1.0);
  }
}
