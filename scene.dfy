/**
  The scene walk of the importer: counting mesh nodes, the single-mode
  first-match search, the multiple-mode export of every mesh, and the
  mode dispatch of `process_node`. Saving and loading resources are taken
  as given functions (`Io`); every save the walk performs is reported, in
  order, as a `SaveCall`.
 */
module SceneImport {
  import opened Optional
  import opened Linear
  import opened ImportOptions
  import opened Surface
  import opened Colliders

  datatype NodeKind = Spatial | MeshInstance(mesh: Option<SurfacedMesh>)

  /** A scene node: its name, whether it is a mesh instance (and its mesh, if any), its children in order. */
  datatype Node = Node(name: string, kind: NodeKind, children: seq<Node>) {
    predicate IsMesh() {
      kind.MeshInstance?
    }
  }

  /** The error codes the importer returns; `ErrIo` stands for any other code a save reports. */
  datatype Error = OK | ErrParseError | ErrUnavailable | ErrIo(code: int)

  /** A reference to a loaded resource, possibly null. */
  datatype Handle = NullHandle | Handle(id: nat)

  /** What is handed to a save: nothing, a mesh record, or a collection of loaded mesh records. */
  datatype Resource = NullResource | MdrResource(record: ExportRecord) | CollectionResource(mdrs: seq<Handle>)

  datatype SaveCall = SaveCall(path: string, resource: Resource)

  /** The host's resource saver and loader. */
  datatype Io = Io(save: (string, Resource) -> Error, load: string -> Handle)

  /**
    What one import works with: the source and save paths, the options,
    the host's geometry routines and resource I/O, the plugin's save
    extension, and the host's `get_basename` and `to_lower` on strings.
   */
  datatype Env = Env(
    sourceFile: string,
    savePath: string,
    options: Options,
    host: Host,
    io: Io,
    saveExtension: string,
    basename: string -> string,
    toLower: string -> string)

  /** The host's MeshDataResourceCollection: the loaded mesh records, in the order they were added. */
  class MeshDataResourceCollection {
    var mdrs: seq<Handle>

    constructor ()
      ensures mdrs == []
    {
      mdrs := [];
    }

    method AddMdr(h: Handle)
      modifies this
      ensures mdrs == old(mdrs) + [h]
    {
      mdrs := mdrs + [h];
    }
  }

  /** A mesh node below the start of a walk, together with its parent. */
  datatype MeshSite = MeshSite(parent: Node, mesh: Node)

  /**
    The mesh nodes among the descendants of `n`, reached through children
    `i` onwards, in depth-first order: each child before its own descendants.
   */
  function MeshSitesFrom(n: Node, i: nat): seq<MeshSite>
    decreases n, |n.children| - i
  {
    if i >= |n.children| then []
    else
      var c := n.children[i];
      (if c.IsMesh() then [MeshSite(n, c)] else []) + MeshSitesFrom(c, 0) + MeshSitesFrom(n, i + 1)
  }

  /** All mesh nodes strictly below `n`, in depth-first order. */
  function MeshSites(n: Node): seq<MeshSite> {
    MeshSitesFrom(n, 0)
  }

  /** `get_mesh_count`: the number of mesh nodes strictly below `n`. */
  method GetMeshCount(n: Node) returns (count: nat)
    ensures count == |MeshSites(n)|
    decreases n
  {
    count := 0;
    var i := 0;
    while i < |n.children|
      invariant 0 <= i <= |n.children|
      invariant count + |MeshSitesFrom(n, i)| == |MeshSites(n)|
    {
      var c := n.children[i];
      if c.IsMesh() {
        count := count + 1;
      }
      var below := GetMeshCount(c);
      count := count + below;
      i := i + 1;
    }
  }

  /** The record `get_mesh` makes of a mesh node: none when its mesh is missing. */
  function MeshRecord(c: Node, env: Env): Option<ExportRecord>
    requires c.IsMesh()
  {
    match c.kind.mesh
    case None => None
    case Some(m) => Some(MeshExport(m, env.options, env.options.colliderType, env.options.scale, env.host))
  }

  /** `p_save_path + "." + get_save_extension()` */
  function SavePathFile(env: Env): string {
    env.savePath + "." + env.saveExtension
  }

  /** The result of a single-mode search: the error it returns and the saves it made. */
  datatype Outcome = Outcome(err: Error, saves: seq<SaveCall>)

  /**
    Single mode from child `i` of `n` on: a mesh child is exported to the
    save path and the search ends there with the save's result (or with a
    parse error when it has no mesh); any other child is searched in turn,
    and only its success ends the search; a failure moves on to the next
    sibling. Running out of children is a parse error.
   */
  function SingleFrom(n: Node, i: nat, env: Env): Outcome
    decreases n, |n.children| - i
  {
    if i >= |n.children| then Outcome(ErrParseError, [])
    else
      var c := n.children[i];
      if c.IsMesh() then
        match MeshRecord(c, env)
        case None => Outcome(ErrParseError, [])
        case Some(rec) =>
          var call := SaveCall(SavePathFile(env), MdrResource(rec));
          Outcome(env.io.save(call.path, call.resource), [call])
      else
        var sub := SingleFrom(c, 0, env);
        if sub.err == OK then sub
        else
          var rest := SingleFrom(n, i + 1, env);
          Outcome(rest.err, sub.saves + rest.saves)
  }

  /** `process_node_single` on a node that is present. */
  method SearchSingle(n: Node, env: Env) returns (err: Error, saves: seq<SaveCall>)
    ensures Outcome(err, saves) == SingleFrom(n, 0, env)
    decreases n
  {
    saves := [];
    var i := 0;
    while i < |n.children|
      invariant 0 <= i <= |n.children|
      invariant SingleFrom(n, 0, env) == Outcome(SingleFrom(n, i, env).err, saves + SingleFrom(n, i, env).saves)
    {
      var c := n.children[i];
      if c.IsMesh() {
        var mdr := GetMesh(c.kind.mesh, env.options, env.options.colliderType, env.options.scale, env.host);
        if mdr == null {
          return ErrParseError, saves;
        }
        var res := MdrResource(mdr.Export());
        var path := env.savePath + "." + env.saveExtension;
        err := env.io.save(path, res);
        return err, saves + [SaveCall(path, res)];
      }
      var e, s := SearchSingle(c, env);
      if e == OK {
        return OK, saves + s;
      }
      saves := saves + s;
      i := i + 1;
    }
    return ErrParseError, saves;
  }

  /** `process_node_single`: a null node is a parse error. */
  method ProcessNodeSingle(n: Option<Node>, env: Env) returns (err: Error, saves: seq<SaveCall>)
    ensures n.None? ==> err == ErrParseError && saves == []
    ensures n.Some? ==> Outcome(err, saves) == SingleFrom(n.value, 0, env)
  {
    if n.None? {
      return ErrParseError, [];
    }
    err, saves := SearchSingle(n.value, env);
  }

  /** The file a mesh child is saved to in multiple mode: named after its PARENT `n`. */
  function MultiFileName(env: Env, parentName: string): string {
    env.basename(env.sourceFile) + "_" + env.toLower(parentName) + "." + env.saveExtension
  }

  /** The save multiple mode makes for mesh child `c` of `n`: a null resource when the mesh is missing. */
  function MeshSave(n: Node, c: Node, env: Env): SaveCall
    requires c.IsMesh()
  {
    var rec := MeshRecord(c, env);
    SaveCall(MultiFileName(env, n.name), if rec.None? then NullResource else MdrResource(rec.value))
  }

  /** The result of a multiple-mode walk: the error it returns, its saves, and what it appended to the collection. */
  datatype MultiOutcome = MultiOutcome(err: Error, saves: seq<SaveCall>, appended: seq<Handle>)

  /**
    What one child `c` of `n` contributes in multiple mode. A mesh child is
    saved, reloaded and appended, and a failed save is reported; then
    every child, mesh or not, is walked, and what that walk returns is
    ignored.
   */
  function ChildPart(n: Node, c: Node, env: Env): MultiOutcome
    decreases c, |c.children| + 1
  {
    var below := MultiFrom(c, 0, env);
    if c.IsMesh() then
      var call := MeshSave(n, c, env);
      var err := env.io.save(call.path, call.resource);
      var h := env.io.load(call.path);
      if err != OK then MultiOutcome(err, [call], [h])
      else MultiOutcome(OK, [call] + below.saves, [h] + below.appended)
    else MultiOutcome(OK, below.saves, below.appended)
  }

  /**
    Multiple mode from child `i` of `n` on: a failed save of a mesh child
    ends this level with that error; otherwise the later children follow.
   */
  function MultiFrom(n: Node, i: nat, env: Env): MultiOutcome
    decreases n, |n.children| - i
  {
    if i >= |n.children| then MultiOutcome(OK, [], [])
    else Then(ChildPart(n, n.children[i], env), MultiFrom(n, i + 1, env))
  }

  /** `a` followed by `b`: an error in `a` stops there, otherwise saves and appends accumulate. */
  function Then(a: MultiOutcome, b: MultiOutcome): MultiOutcome {
    if a.err != OK then a
    else MultiOutcome(b.err, a.saves + b.saves, a.appended + b.appended)
  }

  lemma ConcatAssoc<T>(a: seq<T>, b: seq<T>, c: seq<T>)
    ensures (a + b) + c == a + (b + c)
  {
  }

  lemma ThenIsAssociative(a: MultiOutcome, b: MultiOutcome, c: MultiOutcome)
    ensures Then(a, Then(b, c)) == Then(Then(a, b), c)
  {
    if a.err == OK && b.err == OK {
      assert a.saves + (b.saves + c.saves) == (a.saves + b.saves) + c.saves;
      assert a.appended + (b.appended + c.appended) == (a.appended + b.appended) + c.appended;
    }
  }

  /**
    The body of the multiple-mode loop for a mesh child `c` of `n`: build
    its record, save it under the parent's name, reload the file and
    append the reloaded resource to the collection, whatever the save
    returned.
   */
  method ExportMeshChild(n: Node, c: Node, env: Env, coll: MeshDataResourceCollection)
    returns (err: Error, call: SaveCall)
    requires c.IsMesh()
    modifies coll
    ensures call == MeshSave(n, c, env)
    ensures err == env.io.save(call.path, call.resource)
    ensures coll.mdrs == old(coll.mdrs) + [env.io.load(call.path)]
  {
    var mdr := GetMesh(c.kind.mesh, env.options, env.options.colliderType, env.options.scale, env.host);
    var nodeName := n.name;
    nodeName := env.toLower(nodeName);
    var filename := env.basename(env.sourceFile) + "_" + nodeName + "." + env.saveExtension;
    var res := if mdr == null then NullResource else MdrResource(mdr.Export());
    err := env.io.save(filename, res);
    var mdrl := env.io.load(filename);
    coll.AddMdr(mdrl);
    call := SaveCall(filename, res);
  }

  /** The loop body of `process_node_multi` for child `c` of `n`. */
  method VisitChild(n: Node, c: Node, env: Env, coll: MeshDataResourceCollection) returns (err: Error, saves: seq<SaveCall>)
    modifies coll
    ensures var p := ChildPart(n, c, env);
      err == p.err && saves == p.saves && coll.mdrs == old(coll.mdrs) + p.appended
    decreases c, 1
  {
    saves := [];
    if c.IsMesh() {
      var call;
      err, call := ExportMeshChild(n, c, env, coll);
      saves := [call];
      if err != OK {
        return;
      }
    }
    var _, sub := SearchMulti(c, env, coll);
    saves := saves + sub;
    err := OK;
  }

  /** `process_node_multi` on a node that is present, appending to the shared collection. */
  method SearchMulti(n: Node, env: Env, coll: MeshDataResourceCollection) returns (err: Error, saves: seq<SaveCall>)
    modifies coll
    ensures var r := MultiFrom(n, 0, env);
      err == r.err && saves == r.saves && coll.mdrs == old(coll.mdrs) + r.appended
    decreases n, 0
  {
    saves := [];
    ghost var appended: seq<Handle> := [];
    var i := 0;
    assert MultiFrom(n, 0, env) == Then(MultiOutcome(OK, saves, appended), MultiFrom(n, 0, env));
    while i < |n.children|
      invariant 0 <= i <= |n.children|
      invariant MultiFrom(n, 0, env) == Then(MultiOutcome(OK, saves, appended), MultiFrom(n, i, env))
      invariant coll.mdrs == old(coll.mdrs) + appended
    {
      ghost var acc := MultiOutcome(OK, saves, appended);
      ghost var part, rest := ChildPart(n, n.children[i], env), MultiFrom(n, i + 1, env);
      var e, s := VisitChild(n, n.children[i], env, coll);
      ThenIsAssociative(acc, part, rest);
      ConcatAssoc(old(coll.mdrs), appended, part.appended);
      if e != OK {
        return e, saves + s;
      }
      saves := saves + s;
      appended := appended + part.appended;
      i := i + 1;
    }
    return OK, saves;
  }

  /** `process_node_multi`: a null node is a parse error. */
  method ProcessNodeMulti(n: Option<Node>, env: Env, coll: MeshDataResourceCollection) returns (err: Error, saves: seq<SaveCall>)
    modifies coll
    ensures n.None? ==> err == ErrParseError && saves == [] && coll.mdrs == old(coll.mdrs)
    ensures n.Some? ==> var r := MultiFrom(n.value, 0, env);
      err == r.err && saves == r.saves && coll.mdrs == old(coll.mdrs) + r.appended
  {
    if n.None? {
      return ErrParseError, [];
    }
    err, saves := SearchMulti(n.value, env, coll);
  }

  /** What multiple mode appends to the collection for a node that may be null. */
  function MultiAppended(n: Option<Node>, env: Env): seq<Handle> {
    if n.None? then [] else MultiFrom(n.value, 0, env).appended
  }

  /** The saves multiple mode makes below a node that may be null. */
  function MultiSaves(n: Option<Node>, env: Env): seq<SaveCall> {
    if n.None? then [] else MultiFrom(n.value, 0, env).saves
  }

  /**
    `process_node`: single mode searches; single-merged mode is
    unavailable; multiple mode walks the tree, then saves the collection
    whatever the walk returned, and reports that save's result; any other
    import type is a parse error.
   */
  method ProcessNode(n: Option<Node>, env: Env) returns (err: Error, saves: seq<SaveCall>)
    ensures env.options.importType == ImportSingle ==>
      if n.None? then err == ErrParseError && saves == []
      else Outcome(err, saves) == SingleFrom(n.value, 0, env)
    ensures env.options.importType == ImportSingleMerged ==> err == ErrUnavailable && saves == []
    ensures env.options.importType == ImportMultiple ==>
      var coll := CollectionResource(MultiAppended(n, env));
      && saves == MultiSaves(n, env) + [SaveCall(SavePathFile(env), coll)]
      && err == env.io.save(SavePathFile(env), coll)
    ensures env.options.importType !in {ImportSingle, ImportSingleMerged, ImportMultiple} ==>
      err == ErrParseError && saves == []
  {
    var t := env.options.importType;
    if t == ImportSingle {
      err, saves := ProcessNodeSingle(n, env);
    } else if t == ImportSingleMerged {
      err, saves := ErrUnavailable, [];
    } else if t == ImportMultiple {
      var coll := new MeshDataResourceCollection();
      var _, s := ProcessNodeMulti(n, env, coll);
      var path := env.savePath + "." + env.saveExtension;
      assert coll.mdrs == MultiAppended(n, env);
      var res := CollectionResource(coll.mdrs);
      err := env.io.save(path, res);
      saves := s + [SaveCall(path, res)];
    } else {
      err, saves := ErrParseError, [];
    }
  }

  /** The host reports success for each of the saves `saves` made. */
  predicate MadeSavesSucceed(saves: seq<SaveCall>, io: Io) {
    forall k :: 0 <= k < |saves| ==> io.save(saves[k].path, saves[k].resource) == OK
  }

  lemma MadeSavesSucceedSplit(a: seq<SaveCall>, b: seq<SaveCall>, io: Io)
    requires MadeSavesSucceed(a + b, io)
    ensures MadeSavesSucceed(a, io) && MadeSavesSucceed(b, io)
  {
    forall k | 0 <= k < |a| ensures io.save(a[k].path, a[k].resource) == OK {
      assert (a + b)[k] == a[k];
    }
    forall k | 0 <= k < |b| ensures io.save(b[k].path, b[k].resource) == OK {
      assert (a + b)[|a| + k] == b[k];
    }
  }

  /** Single mode with no mesh anywhere below fails with a parse error and saves nothing. */
  lemma {:induction false} SingleNoMeshIsParseError(n: Node, i: nat, env: Env)
    requires MeshSitesFrom(n, i) == []
    ensures SingleFrom(n, i, env) == Outcome(ErrParseError, [])
    decreases n, |n.children| - i
  {
    if i < |n.children| {
      var c := n.children[i];
      assert !c.IsMesh() && MeshSitesFrom(c, 0) == [] && MeshSitesFrom(n, i + 1) == [];
      SingleNoMeshIsParseError(c, 0, env);
      SingleNoMeshIsParseError(n, i + 1, env);
    }
  }

  /**
    When the save of the first mesh node in depth-first order succeeds,
    single mode exports exactly that mesh, to `p_save_path.<extension>`,
    provided that node has a mesh.
   */
  lemma {:induction false} SingleExportsFirstMesh(n: Node, i: nat, env: Env)
    requires |MeshSitesFrom(n, i)| > 0
    requires MeshSitesFrom(n, i)[0].mesh.IsMesh() && MeshSitesFrom(n, i)[0].mesh.kind.mesh.Some?
    requires env.io.save(SavePathFile(env), MdrResource(MeshRecord(MeshSitesFrom(n, i)[0].mesh, env).value)) == OK
    ensures var first := MeshSitesFrom(n, i)[0].mesh;
      SingleFrom(n, i, env) == Outcome(OK, [SaveCall(SavePathFile(env), MdrResource(MeshRecord(first, env).value))])
    decreases n, |n.children| - i
  {
    var c := n.children[i];
    if c.IsMesh() {
      assert MeshSitesFrom(n, i)[0].mesh == c;
    } else if MeshSitesFrom(c, 0) != [] {
      assert MeshSitesFrom(n, i)[0] == MeshSitesFrom(c, 0)[0];
      SingleExportsFirstMesh(c, 0, env);
    } else {
      SingleNoMeshIsParseError(c, 0, env);
      assert MeshSitesFrom(n, i) == MeshSitesFrom(n, i + 1);
      SingleExportsFirstMesh(n, i + 1, env);
      assert SingleFrom(n, i, env).saves == [] + SingleFrom(n, i + 1, env).saves;
    }
  }

  /** Every save in `saves` writes a mesh record to `path`. */
  predicate RecordsTo(saves: seq<SaveCall>, path: string) {
    forall k :: 0 <= k < |saves| ==> saves[k].path == path && saves[k].resource.MdrResource?
  }

  /**
    Whatever the saves return, the first save single mode makes is the
    record of the first mesh node in depth-first order, to
    `p_save_path.<extension>`, provided that node has a mesh.
   */
  lemma {:induction false} SingleSavesFirstMeshFirst(n: Node, i: nat, env: Env)
    requires |MeshSitesFrom(n, i)| > 0
    requires MeshSitesFrom(n, i)[0].mesh.IsMesh() && MeshSitesFrom(n, i)[0].mesh.kind.mesh.Some?
    ensures var r, first := SingleFrom(n, i, env), MeshSitesFrom(n, i)[0].mesh;
      && |r.saves| > 0
      && r.saves[0] == SaveCall(SavePathFile(env), MdrResource(MeshRecord(first, env).value))
    decreases n, |n.children| - i
  {
    var c := n.children[i];
    if c.IsMesh() {
      assert MeshSitesFrom(n, i)[0].mesh == c;
    } else {
      var sub, rest := SingleFrom(c, 0, env), SingleFrom(n, i + 1, env);
      if MeshSitesFrom(c, 0) != [] {
        assert MeshSitesFrom(n, i)[0] == MeshSitesFrom(c, 0)[0];
        SingleSavesFirstMeshFirst(c, 0, env);
        if sub.err != OK {
          assert SingleFrom(n, i, env).saves == sub.saves + rest.saves;
        }
      } else {
        SingleNoMeshIsParseError(c, 0, env);
        assert MeshSitesFrom(n, i) == MeshSitesFrom(n, i + 1);
        SingleSavesFirstMeshFirst(n, i + 1, env);
        assert SingleFrom(n, i, env).saves == [] + rest.saves;
      }
    }
  }

  /**
    A mesh instance without a mesh, met as a child of the level being
    searched, ends that level with a parse error and no save.
   */
  lemma SingleMissingMeshEndsLevel(n: Node, i: nat, env: Env)
    requires i < |n.children| && n.children[i].IsMesh() && n.children[i].kind.mesh.None?
    ensures SingleFrom(n, i, env) == Outcome(ErrParseError, [])
  {
  }

  /**
    A failed search in a non-mesh child does not end the enclosing level:
    whatever that subtree saved stands, and the search goes on with the
    later siblings, whose first mesh is then saved to the same
    `p_save_path.<extension>`.
   */
  lemma SingleFailedSubtreeMovesOn(n: Node, i: nat, env: Env)
    requires i < |n.children| && !n.children[i].IsMesh() && SingleFrom(n.children[i], 0, env).err != OK
    requires |MeshSitesFrom(n, i + 1)| > 0
    requires MeshSitesFrom(n, i + 1)[0].mesh.IsMesh() && MeshSitesFrom(n, i + 1)[0].mesh.kind.mesh.Some?
    ensures var sub, r := SingleFrom(n.children[i], 0, env), SingleFrom(n, i, env);
      && |r.saves| > |sub.saves|
      && r.saves[..|sub.saves|] == sub.saves
      && r.saves[|sub.saves|]
         == SaveCall(SavePathFile(env), MdrResource(MeshRecord(MeshSitesFrom(n, i + 1)[0].mesh, env).value))
  {
    var sub, rest := SingleFrom(n.children[i], 0, env), SingleFrom(n, i + 1, env);
    SingleSavesFirstMeshFirst(n, i + 1, env);
    assert SingleFrom(n, i, env).saves == sub.saves + rest.saves;
  }

  /** Single mode only ever writes mesh records, and only to `p_save_path.<extension>`. */
  lemma {:induction false} SingleSavesGoToSavePath(n: Node, i: nat, env: Env)
    ensures RecordsTo(SingleFrom(n, i, env).saves, SavePathFile(env))
    decreases n, |n.children| - i
  {
    if i < |n.children| && !n.children[i].IsMesh() {
      var c := n.children[i];
      SingleSavesGoToSavePath(c, 0, env);
      SingleSavesGoToSavePath(n, i + 1, env);
      var sub, rest := SingleFrom(c, 0, env), SingleFrom(n, i + 1, env);
      if sub.err != OK {
        var all := sub.saves + rest.saves;
        assert forall k :: 0 <= k < |all| ==> all[k] == if k < |sub.saves| then sub.saves[k] else rest.saves[k - |sub.saves|];
      }
    }
  }

  /** The error of `o`, unless a parse error, is what the host returned for its last save. */
  predicate ErrorOfLastSave(o: Outcome, io: Io) {
    o.err != ErrParseError ==>
      |o.saves| > 0 && o.err == io.save(o.saves[|o.saves| - 1].path, o.saves[|o.saves| - 1].resource)
  }

  /**
    A single-mode result other than a parse error is the result of the
    last save it made; in particular success means that save succeeded.
   */
  lemma {:induction false} SingleResultIsLastSave(n: Node, i: nat, env: Env)
    ensures ErrorOfLastSave(SingleFrom(n, i, env), env.io)
    decreases n, |n.children| - i
  {
    if i < |n.children| && !n.children[i].IsMesh() {
      var c := n.children[i];
      SingleResultIsLastSave(c, 0, env);
      SingleResultIsLastSave(n, i + 1, env);
      var sub, rest := SingleFrom(c, 0, env), SingleFrom(n, i + 1, env);
      if sub.err == OK {
        assert SingleFrom(n, i, env) == sub;
      } else {
        assert SingleFrom(n, i, env) == Outcome(rest.err, sub.saves + rest.saves);
        if rest.err != ErrParseError {
          assert (sub.saves + rest.saves)[|sub.saves + rest.saves| - 1] == rest.saves[|rest.saves| - 1];
        }
      }
    }
  }

  /** The collection receives, in order, the reload of every file multiple mode saved. */
  lemma {:induction false} ChildPartReloadsEverySave(n: Node, c: Node, env: Env)
    ensures var p := ChildPart(n, c, env);
      |p.appended| == |p.saves| && forall k :: 0 <= k < |p.saves| ==> p.appended[k] == env.io.load(p.saves[k].path)
    decreases c, |c.children| + 1
  {
    MultiReloadsEverySave(c, 0, env);
  }

  /** The same as `ChildPartReloadsEverySave`, for children `i` onwards of `n`. */
  lemma {:induction false} MultiReloadsEverySave(n: Node, i: nat, env: Env)
    ensures var r := MultiFrom(n, i, env);
      |r.appended| == |r.saves| && forall k :: 0 <= k < |r.saves| ==> r.appended[k] == env.io.load(r.saves[k].path)
    decreases n, |n.children| - i
  {
    if i < |n.children| {
      ChildPartReloadsEverySave(n, n.children[i], env);
      var part := ChildPart(n, n.children[i], env);
      if part.err == OK {
        MultiReloadsEverySave(n, i + 1, env);
      }
    }
  }

  /** `saves` are the multiple-mode saves of the mesh nodes `sites`, one each, in order. */
  predicate SavedAsSites(saves: seq<SaveCall>, sites: seq<MeshSite>, env: Env) {
    && |saves| == |sites|
    && forall k :: 0 <= k < |sites| ==> sites[k].mesh.IsMesh() && saves[k] == MeshSave(sites[k].parent, sites[k].mesh, env)
  }

  lemma SavedAsSitesConcat(s1: seq<SaveCall>, t1: seq<MeshSite>, s2: seq<SaveCall>, t2: seq<MeshSite>, env: Env)
    requires SavedAsSites(s1, t1, env) && SavedAsSites(s2, t2, env)
    ensures SavedAsSites(s1 + s2, t1 + t2, env)
  {
    forall k | |t1| <= k < |t1 + t2|
      ensures (t1 + t2)[k].mesh.IsMesh() && (s1 + s2)[k] == MeshSave((t1 + t2)[k].parent, (t1 + t2)[k].mesh, env)
    {
      assert (t1 + t2)[k] == t2[k - |t1|] && (s1 + s2)[k] == s2[k - |t1|];
    }
  }

  /**
    When every save the walk makes succeeds, multiple mode saves every
    mesh node below `n` once, in depth-first order, under the name of that node's parent, and
    returns OK.
   */
  lemma {:induction false} ChildPartSavesEveryMesh(n: Node, c: Node, env: Env)
    requires MadeSavesSucceed(ChildPart(n, c, env).saves, env.io)
    ensures var p := ChildPart(n, c, env);
      p.err == OK && SavedAsSites(p.saves, (if c.IsMesh() then [MeshSite(n, c)] else []) + MeshSitesFrom(c, 0), env)
    decreases c, |c.children| + 1
  {
    var below := MultiFrom(c, 0, env);
    if c.IsMesh() {
      var call := MeshSave(n, c, env);
      assert ChildPart(n, c, env).saves[0] == call;
      assert env.io.save(call.path, call.resource) == OK;
      assert ChildPart(n, c, env).saves == [call] + below.saves;
      MadeSavesSucceedSplit([call], below.saves, env.io);
      MultiSavesEveryMesh(c, 0, env);
      assert SavedAsSites([call], [MeshSite(n, c)], env);
      SavedAsSitesConcat([call], [MeshSite(n, c)], MultiFrom(c, 0, env).saves, MeshSitesFrom(c, 0), env);
    } else {
      MultiSavesEveryMesh(c, 0, env);
      assert [] + MeshSitesFrom(c, 0) == MeshSitesFrom(c, 0);
    }
  }

  /** The same as `ChildPartSavesEveryMesh`, for children `i` onwards of `n`. */
  lemma {:induction false} MultiSavesEveryMesh(n: Node, i: nat, env: Env)
    requires MadeSavesSucceed(MultiFrom(n, i, env).saves, env.io)
    ensures var r := MultiFrom(n, i, env);
      r.err == OK && SavedAsSites(r.saves, MeshSitesFrom(n, i), env)
    decreases n, |n.children| - i
  {
    if i < |n.children| {
      var c := n.children[i];
      var part, rest := ChildPart(n, c, env), MultiFrom(n, i + 1, env);
      if part.err != OK {
        assert MultiFrom(n, i, env).saves == part.saves;
      } else {
        assert MultiFrom(n, i, env).saves == part.saves + rest.saves;
        MadeSavesSucceedSplit(part.saves, rest.saves, env.io);
      }
      ChildPartSavesEveryMesh(n, c, env);
      MultiSavesEveryMesh(n, i + 1, env);
      var here := (if c.IsMesh() then [MeshSite(n, c)] else []) + MeshSitesFrom(c, 0);
      assert MeshSitesFrom(n, i) == here + MeshSitesFrom(n, i + 1);
      SavedAsSitesConcat(ChildPart(n, c, env).saves, here, MultiFrom(n, i + 1, env).saves, MeshSitesFrom(n, i + 1), env);
    } else {
      assert SavedAsSites([], [], env);
    }
  }

  /**
    When every save the walk makes succeeds, the collection holds one
    reloaded record per mesh node below `n`: as many as `get_mesh_count`
    counts.
   */
  lemma CollectionCountsEveryMesh(n: Node, env: Env)
    requires MadeSavesSucceed(MultiFrom(n, 0, env).saves, env.io)
    ensures |MultiFrom(n, 0, env).appended| == |MeshSites(n)|
  {
    MultiReloadsEverySave(n, 0, env);
    MultiSavesEveryMesh(n, 0, env);
  }

  /**
    A failed walk fails at this level: the error is the result of its
    last save, which went to the file named after `n` itself.
   */
  lemma {:induction false} MultiErrorIsOwnSave(n: Node, i: nat, env: Env)
    ensures var r := MultiFrom(n, i, env);
      r.err != OK ==>
        && |r.saves| > 0
        && r.saves[|r.saves| - 1].path == MultiFileName(env, n.name)
        && r.err == env.io.save(r.saves[|r.saves| - 1].path, r.saves[|r.saves| - 1].resource)
    decreases |n.children| - i
  {
    if i < |n.children| {
      var part := ChildPart(n, n.children[i], env);
      if part.err == OK {
        MultiErrorIsOwnSave(n, i + 1, env);
        var rest := MultiFrom(n, i + 1, env);
        if rest.err != OK {
          assert (part.saves + rest.saves)[|part.saves + rest.saves| - 1] == rest.saves[|rest.saves| - 1];
        }
      }
    }
  }

  /**
    Any two mesh children of one node are saved to the same file, named
    after that node, whatever the saves return: the second overwrites the
    first.
   */
  lemma SiblingMeshesShareAFile(n: Node, i: nat, j: nat, env: Env)
    requires i < j < |n.children| && n.children[i].IsMesh() && n.children[j].IsMesh()
    ensures var pi, pj := ChildPart(n, n.children[i], env), ChildPart(n, n.children[j], env);
      && |pi.saves| > 0 && |pj.saves| > 0
      && pi.saves[0].path == pj.saves[0].path == MultiFileName(env, n.name)
  {
  }
}
