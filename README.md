# Mesh data resource import, modelled in Dafny

This project models the scene importer base of the mesh data resource
module for the Godot engine (`MDRImportPluginBase`). The importer walks an
imported scene and finds its mesh instances. For each one it:

- transforms the vertices and normals of the mesh's first surface by the
  "offset", "rotation" and "scale" import options;
- attaches the collision shapes that the "collider_type" option asks for;
- saves the result as a `MeshDataResource`.

The "import_type" option selects how much is exported:

- *Single*: the first mesh found. A failure deeper in the tree lets the
  search go on, so a later mesh may be saved to the same file;
- *Single Merged*: not available;
- *Multiple*: every mesh. Each one is saved to a file named after its
  parent node, and the reloaded records are gathered in a
  `MeshDataResourceCollection`, which is saved last.

Modules:

- `Optional`, `Linear`: option values, and the engine's `Vector3`, `Basis`
  and `Transform` over exact reals.
- `ImportOptions`: the import options.
- `Surface`: `apply_transforms` on a surface array of `Mesh::ARRAY_MAX` (9)
  slots.
- `Shapes`: the engine's shape objects and `scale_shape`, which rescales
  them in place.
- `Colliders`: `get_mesh`.
  - The `MeshDataResource` class holds references to shape objects.
  - `Export()` reads back the values a save would write.
  - The collider policy is the function `ColliderShapes`.
  - The box, capsule, cylinder and sphere fits are functions of the
    bounding box.
- `SceneImport`: the scene tree and the traversals.
  - `get_mesh_count`, `process_node_single`, `process_node_multi` and
    `process_node` are modelled.
  - The collection is a class whose `mdrs` sequence is appended to.
  - Every save the import makes is reported, in order, as a `SaveCall`.
  - `SingleFrom`, `ChildPart`/`MultiFrom` and `MeshSitesFrom` are the
    recursive functions that specify the walks.

The engine is reached through function-valued fields:

- `Host`: the engine's geometry routines;
- `Io`: the resource saver and loader;
- `Env.basename`, `Env.toLower`: the string routines.

Where the code departs from what one would expect on reading the option
names, the model follows the code:

- Trimesh, single-convex and decomposition shapes are rescaled by
  `scale_shape`. The box, capsule, cylinder and sphere fits are not.
- The single-convex shape and the decomposition come from the imported
  mesh. The trimesh and the bounding box come from the mesh rebuilt from
  the transformed surface.
- In multiple mode, each mesh child's file is named after the child's
  *parent* node. Sibling meshes therefore share one file
  (`SiblingMeshesShareAFile`).
- In single mode, a failed search in a child subtree does not end the
  search. The subtree's failed save stands, and the enclosing level goes
  on with later siblings, which may save again to `p_save_path.<ext>`
  (`SingleFailedSubtreeMovesOn`).
- In single mode, a mesh instance without a mesh ends only the level it
  is a direct child of, with a parse error (`SingleMissingMeshEndsLevel`).
  One level deeper, that failure lets the enclosing level go on.
- In multiple mode, a failed save ends only the current level of the walk.
  The recursive call's result is ignored, and so is the walk's result in
  `process_node`. The collection is saved regardless.

## Model

| member | source | states |
|---|---|---|
| Linear.MaxAxis | plugin/mdr_import_plugin_base.cpp:346 | `MAX(s.x, MAX(s.y, s.z))` is at least every axis factor and equals one of them |
| Surface.ApplyTransforms | plugin/mdr_import_plugin_base.cpp:287-335 | the loops over vertices and normals leave exactly the surface `TransformedArrays` describes |
| Surface.TransformPointwise | plugin/mdr_import_plugin_base.cpp:292-312 | both arrays keep their length; vertex i becomes `basis * v_i + offset`, normal i becomes `basis * n_i` with no offset and no renormalisation |
| Surface.EmptyNormalsStayEmpty | plugin/mdr_import_plugin_base.cpp:304-312 | an absent or empty normal array is written back as an empty Vector3 array |
| Surface.OtherSlotsUnchanged | plugin/mdr_import_plugin_base.cpp:313-334 | every slot other than ARRAY_VERTEX and ARRAY_NORMAL, tangents included, is left as it was |
| Surface.NormalsIgnoreOffset | plugin/mdr_import_plugin_base.cpp:306-311 | two option sets with the same basis give the same normals, whatever their offsets |
| Surface.IdentityKeepsGeometry | plugin/mdr_import_plugin_base.cpp:292-312 | identity basis and zero offset leave every vertex and normal as it was |
| Surface.VertexTransportIsAffine | plugin/mdr_import_plugin_base.cpp:292-301 | the vertex map is affine: the image of a sum is the sum of the linear images plus the offset |
| Shapes.XformEach | plugin/mdr_import_plugin_base.cpp:382-386 | the point loop keeps the count and maps point i to `b * p_i` |
| Shapes.ScaleShape | plugin/mdr_import_plugin_base.cpp:337-407 | returns the same shape (null stays null); a non-null shape's parameters become `ScaledData` of the old ones |
| Shapes.ScalingKeepsKind | plugin/mdr_import_plugin_base.cpp:342-404 | scaling never changes a shape's kind; kinds other than the six handled ones are untouched |
| Shapes.PolygonScalingIsComponentwise | plugin/mdr_import_plugin_base.cpp:376-404 | concave faces and convex points keep count and order, each becoming `(s.x*p.x, s.y*p.y, s.z*p.z)` |
| Shapes.UnitScaleKeepsShape | plugin/mdr_import_plugin_base.cpp:337-407 | the scale (1, 1, 1) leaves every shape unchanged |
| Shapes.SphereCoversEveryAxis | plugin/mdr_import_plugin_base.cpp:342-347 | a non-negative sphere radius is scaled by the largest axis factor, so it covers the radius stretched along any one axis |
| Shapes.CapsuleAndCylinderKeepProportions | plugin/mdr_import_plugin_base.cpp:356-374 | capsule and cylinder radius and height are both multiplied by the same max factor, keeping their ratio |
| Shapes.BoxScalingIsInvertible | plugin/mdr_import_plugin_base.cpp:349-354 | box extents are multiplied axis by axis, so scaling back by the reciprocals restores them |
| Colliders.MeshDataResource.SetArray | plugin/mdr_import_plugin_base.cpp:162 | the record's surface becomes the given arrays; its shapes are kept |
| Colliders.MeshDataResource.AddCollisionShape | plugin/mdr_import_plugin_base.cpp:172 | appends one shape reference with its transform; the surface is kept |
| Colliders.DecompositionShapes | plugin/mdr_import_plugin_base.cpp:189-197 | one shape per decomposition piece |
| Colliders.AttachDecomposition | plugin/mdr_import_plugin_base.cpp:184-197 | after the scale loop and the add loop, the record holds one scaled hull per piece, in order, at the identity placement |
| Colliders.AttachHostShape | plugin/mdr_import_plugin_base.cpp:164-183 | a null builder result attaches nothing; otherwise one shape, scaled, at the identity placement |
| Colliders.AttachNewShape | plugin/mdr_import_plugin_base.cpp:203-217 | a newly instanced shape with the given parameters is attached at the given placement; the surface is kept |
| Colliders.AttachBoundingShape | plugin/mdr_import_plugin_base.cpp:198-278 | exactly one unscaled shape, with the fit of `BoundingFit` for the collider type |
| Colliders.GetMesh | plugin/mdr_import_plugin_base.cpp:153-285 | a missing mesh gives null; otherwise a fresh record whose surface is the transformed surface 0 and whose shapes are `ColliderShapes` of the collider type |
| Colliders.ColliderCounts | plugin/mdr_import_plugin_base.cpp:164-279 | NONE attaches 0 shapes; trimesh and single convex attach 0 or 1 depending on the builder; decomposition attaches one per piece; each bounding type attaches exactly 1 |
| Colliders.HostShapesAreScaledInPlace | plugin/mdr_import_plugin_base.cpp:164-197 | trimesh, single-convex and decomposition shapes sit at the identity transform, every point scaled axis by axis, in order |
| Colliders.ConvexShapesIgnoreTransform | plugin/mdr_import_plugin_base.cpp:179-189 | the convex shapes come from the imported mesh, so offset and rotation do not change them |
| Colliders.BoundingShapesIgnoreScale | plugin/mdr_import_plugin_base.cpp:198-278 | bounding shapes do not depend on the scale factor and sit at `aabb.position + size / 2` |
| Colliders.BoxFitSpansAabb | plugin/mdr_import_plugin_base.cpp:198-217 | the box has identity basis and extents `size * 0.5`, so centre minus and plus extents are the AABB's corners |
| Colliders.SphereFitInsideAabb | plugin/mdr_import_plugin_base.cpp:260-278 | for a non-negative size, the sphere of radius `min(size) * 0.5` at the centre lies within the AABB |
| Colliders.CapsuleAndCylinderFits | plugin/mdr_import_plugin_base.cpp:218-259 | capsule and cylinder share radius `min(size.x, size.z) * 0.5` and height `size.y * 0.5`; only the capsule is turned a quarter about X |
| Colliders.BoundingParametersNonNegative | plugin/mdr_import_plugin_base.cpp:198-278 | a non-negative size gives non-negative extents, radii and heights |
| Colliders.BoundingFitExample | plugin/mdr_import_plugin_base.cpp:198-278 | an AABB at the origin of size (2, 4, 6) gives box extents (1, 2, 3) and a unit sphere, both centred at (1, 2, 3) |
| SceneImport.MeshDataResourceCollection.AddMdr | plugin/mdr_import_plugin_base.cpp:140 | appends one reloaded record to the collection |
| SceneImport.GetMeshCount | plugin/mdr_import_plugin_base.cpp:71-85 | the count is the number of mesh nodes strictly below the node |
| SceneImport.SearchSingle | plugin/mdr_import_plugin_base.cpp:94-112 | the loop's result and saves are those of the depth-first search `SingleFrom` |
| SceneImport.ProcessNodeSingle | plugin/mdr_import_plugin_base.cpp:87-113 | a null node is a parse error with no saves; otherwise the search's outcome |
| SceneImport.SingleNoMeshIsParseError | plugin/mdr_import_plugin_base.cpp:94-112 | with no mesh strictly below, single mode fails with a parse error and saves nothing |
| SceneImport.SingleSavesFirstMeshFirst | plugin/mdr_import_plugin_base.cpp:94-109 | whatever the saves return, the first save is the record of the first mesh in depth-first order, to `p_save_path.<ext>`, when that node has a mesh |
| SceneImport.SingleExportsFirstMesh | plugin/mdr_import_plugin_base.cpp:94-109 | when the first mesh in depth-first order has a mesh and the save of its record succeeds, it is the only one exported, to `p_save_path.<ext>`, and the result is OK |
| SceneImport.SingleMissingMeshEndsLevel | plugin/mdr_import_plugin_base.cpp:97-102 | a mesh instance without a mesh, as a direct child, ends that level with ERR_PARSE_ERROR and no save |
| SceneImport.SingleFailedSubtreeMovesOn | plugin/mdr_import_plugin_base.cpp:104-110 | after a failed search in a non-mesh child, its saves stand and the next save is the record of the first later mesh, to the same `p_save_path.<ext>` |
| SceneImport.SingleSavesGoToSavePath | plugin/mdr_import_plugin_base.cpp:100-107 | single mode only ever writes mesh records, and only to `p_save_path.<ext>` |
| SceneImport.SingleResultIsLastSave | plugin/mdr_import_plugin_base.cpp:102-112 | any result other than a parse error is the result of the last save made; success means that save succeeded |
| SceneImport.ExportMeshChild | plugin/mdr_import_plugin_base.cpp:125-140 | a mesh child is saved under `basename + "_" + lower(parent name) + "." + ext`, and the reload is appended whatever the save returned |
| SceneImport.VisitChild | plugin/mdr_import_plugin_base.cpp:123-147 | the loop body does what `ChildPart` describes: a failed save is returned, otherwise the child's subtree is walked and its result ignored |
| SceneImport.SearchMulti | plugin/mdr_import_plugin_base.cpp:122-150 | the loop's result, saves and appends are those of the walk `MultiFrom` |
| SceneImport.ProcessNodeMulti | plugin/mdr_import_plugin_base.cpp:115-151 | a null node is a parse error with no saves and no appends; otherwise the walk's outcome |
| SceneImport.ProcessNode | plugin/mdr_import_plugin_base.cpp:48-69 | Single searches; Single Merged is ERR_UNAVAILABLE; Multiple saves the collection at `p_save_path.<ext>` after the walk, whatever the walk returned, and returns that save's result; other types are a parse error |
| SceneImport.ChildPartReloadsEverySave | plugin/mdr_import_plugin_base.cpp:136-140 | the collection receives the reload of each file a child's part saved, in the same order, including a save that failed |
| SceneImport.MultiReloadsEverySave | plugin/mdr_import_plugin_base.cpp:122-150 | the collection receives, in order, the reload of every file the walk saved |
| SceneImport.ChildPartSavesEveryMesh | plugin/mdr_import_plugin_base.cpp:125-147 | when each save the part itself makes succeeds, it returns OK and saves the child (if it is a mesh) and then every mesh below it |
| SceneImport.MultiSavesEveryMesh | plugin/mdr_import_plugin_base.cpp:122-150 | when each save the walk itself makes succeeds, the walk returns OK and saves every mesh node below, in depth-first order, each under its parent's name |
| SceneImport.CollectionCountsEveryMesh | plugin/mdr_import_plugin_base.cpp:71-85 | when each save the walk makes succeeds, the collection holds as many records as `get_mesh_count` counts |
| SceneImport.MultiErrorIsOwnSave | plugin/mdr_import_plugin_base.cpp:136-150 | a failing walk fails at its own level: the error is its last save's result, to the file named after the node itself |
| SceneImport.SiblingMeshesShareAFile | plugin/mdr_import_plugin_base.cpp:125-136 | any two mesh children of any node are saved to the same path, `basename_lower(node name).ext`, whatever the saves return |

## Left out

- Resource I/O is not modelled. `ResourceSaver::save` and `ResourceLoader::load` are given functions of `Io`, and every save is reported as a `SaveCall`.
- Reloads are modelled as depending on the path alone. Loading a file just overwritten (sibling meshes) yields whatever the loader returns for that path.
- Floating-point rounding is not modelled: `real_t`, and the `float` factor in `scale_shape`, are taken as exact reals.
- The Euler-angle construction `Basis(rotation).scaled(scale)` is taken as given (`Options.basis`).
- The π/2 rotation of the capsule uses its exact matrix (`QuarterTurnX`).
- The engine's geometry routines are given functions of `Host`. These are `create_trimesh_shape`, `create_convex_shape`, `convex_decompose` and `get_aabb`. The mesh `m` that `add_surface_from_arrays` rebuilds from the transformed surface is the value `ArrayMesh([arrays])`, a mesh with that one surface.
- `String::get_basename` and `String::to_lower` are given functions.
- `get_import_options` and `get_option_visibility` are not modelled. They only declare the option list for the editor.
- `register_types.cpp` is not part of this model. It only registers classes.
- The commented-out tangent transform is not modelled. The model shows tangents are left untouched (`Surface.OtherSlotsUnchanged`).
- A mesh with no surfaces is excluded by the type `SurfacedMesh`. The engine reports an error on `surface_get_arrays(0)`.
- A mesh instance whose mesh is not an `ArrayMesh` is modelled as a missing mesh (`None`), as the failed cast makes it.
- Vertex or normal slots holding a non-Vector3 array are read as empty.
- Surface arrays are values. The in-place write of `apply_transforms` acts on the copy `surface_get_arrays` returns, so it is not observable.
- Shape objects are modelled only as the engine's shape kinds. A shape shared by two records, or aliased across imports, is not modelled.
- Collider and import codes outside the engine's enums are not modelled. The collider type is a datatype of the eight values. An import type outside 0–2 is modelled, and gives a parse error.
- The unused parameters `r_platform_variants`, `r_gen_files` and `r_metadata` are not modelled.
- The engine's error printing (`ERR_FAIL_*`) is not modelled.
