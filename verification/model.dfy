/** `Model` (Meshes/Model.cs): loads a model file through Assimp, walks its node tree depth first
    and turns every mesh it meets into a `DataMesh`, loading the material textures it names
    through a cache keyed by resolved path. */
module Models {
  import opened Values
  import opened GL
  import opened VertexLayout
  import opened Textures
  import opened Meshes
  import opened MeshData

  // ---------------------------------------------------------------- imported scenes

  /** The texture kinds `VisitMesh` asks each material for, in that order. */
  datatype TextureType = Diffuse | Specular | Normals | Height

  /** A material: the raw texture paths it lists per kind. */
  datatype Material = Material(textures: map<TextureType, seq<string>>)

  /** A scene-graph node: the scene meshes it references and its children. */
  datatype Node = Node(meshes: seq<nat>, children: seq<Node>)

  /** What `ImportFile` hands back when it returns a scene. */
  datatype ImportedScene = ImportedScene(root: Option<Node>, flags: nat, meshes: seq<ImportedMesh>, materials: seq<Material>)

  /** `AI_SCENE_FLAGS_INCOMPLETE`. */
  const SceneFlagsIncomplete: nat := 1

  /** `assimp.ImportFile(path, Triangulate)`: the importer is an oracle from path to scene; a
      path it does not know yields null. */
  function Import(importer: map<string, ImportedScene>, path: string): Option<ImportedScene> {
    if path in importer then Some(importer[path]) else None
  }

  /** The guard of `LoadModelData`: no scene, no root node, or flags exactly equal to the
      incomplete flag. */
  predicate Rejected(scene: Option<ImportedScene>) {
    scene.None? || scene.value.root.None? || scene.value.flags == SceneFlagsIncomplete
  }

  /** `GetMaterialTextureCount` and `GetMaterialTexture` together: the paths of one kind. */
  function TexturePaths(material: Material, kind: TextureType): seq<string> {
    if kind in material.textures then material.textures[kind] else []
  }

  /** Every mesh index a node, or any node below it, references is below `count`. */
  predicate NodeRefs(n: Node, count: nat)
    decreases n
  {
    && (forall i :: 0 <= i < |n.meshes| ==> n.meshes[i] < count)
    && (forall k :: 0 <= k < |n.children| ==> NodeRefs(n.children[k], count))
  }

  /** What Assimp guarantees of a scene it returns: the node tree references existing meshes and
      every mesh is well formed. */
  predicate Consistent(scene: ImportedScene) {
    && (scene.root.Some? ==> NodeRefs(scene.root.value, |scene.meshes|))
    && (forall i :: 0 <= i < |scene.meshes| ==> MeshOk(scene.meshes[i], |scene.materials|))
  }

  // ---------------------------------------------------------------- traversal order

  /** The mesh indices `VisitNode` meets: the node's own meshes in order, then each child's
      subtree, left to right. */
  function Preorder(n: Node): seq<nat>
    decreases n, 1
  {
    n.meshes + Children(n, |n.children|)
  }

  /** The mesh indices of the first `k` children's subtrees. */
  function Children(n: Node, k: nat): seq<nat>
    requires k <= |n.children|
    decreases n, 0, k
  {
    if k == 0 then [] else Children(n, k - 1) + Preorder(n.children[k - 1])
  }

  /** A mesh index is visited exactly when the node itself or one of its children's subtrees
      lists it. */
  lemma {:induction false} PreorderMembers(n: Node, x: nat)
    ensures x in Preorder(n) <==> x in n.meshes || exists k :: 0 <= k < |n.children| && x in Preorder(n.children[k])
  {
    ChildrenMembers(n, |n.children|, x);
  }

  lemma {:induction false} ChildrenMembers(n: Node, k: nat, x: nat)
    requires k <= |n.children|
    ensures x in Children(n, k) <==> exists j :: 0 <= j < k && x in Preorder(n.children[j])
    decreases k
  {
    if k > 0 {
      ChildrenMembers(n, k - 1, x);
    }
  }

  /** A node's own meshes come first, and a later subtree's meshes come after an earlier one's. */
  lemma {:induction false} PreorderBlocks(n: Node, k: nat)
    requires k < |n.children|
    ensures Preorder(n)[..|n.meshes|] == n.meshes
    ensures var start := |n.meshes| + |Children(n, k)|;
            && start + |Preorder(n.children[k])| <= |Preorder(n)|
            && Preorder(n)[start..start + |Preorder(n.children[k])|] == Preorder(n.children[k])
  {
    ChildrenPrefix(n, k + 1, |n.children|);
    var c := Children(n, |n.children|);
    assert c[..|Children(n, k + 1)|] == Children(n, k) + Preorder(n.children[k]);
  }

  lemma {:induction false} ChildrenPrefix(n: Node, k: nat, m: nat)
    requires k <= m <= |n.children|
    ensures |Children(n, k)| <= |Children(n, m)| && Children(n, m)[..|Children(n, k)|] == Children(n, k)
    decreases m - k
  {
    if k < m {
      ChildrenPrefix(n, k, m - 1);
      assert Children(n, m) == Children(n, m - 1) + Preorder(n.children[m - 1]);
    }
  }

  /** Every index the walk meets refers to a scene mesh. */
  lemma {:induction false} PreorderRefs(n: Node, count: nat)
    requires NodeRefs(n, count)
    ensures forall j :: 0 <= j < |Preorder(n)| ==> Preorder(n)[j] < count
    decreases n, 1
  {
    ChildrenRefs(n, |n.children|, count);
  }

  lemma {:induction false} ChildrenRefs(n: Node, k: nat, count: nat)
    requires k <= |n.children| && NodeRefs(n, count)
    ensures forall j :: 0 <= j < |Children(n, k)| ==> Children(n, k)[j] < count
    decreases n, 0, k
  {
    if k > 0 {
      ChildrenRefs(n, k - 1, count);
      PreorderRefs(n.children[k - 1], count);
    }
  }

  // ---------------------------------------------------------------- texture paths

  predicate FullyQualified(p: string) {
    |p| > 0 && p[0] == '/'
  }

  /** `textureDirectory`: `Assets` under the current directory. */
  function TextureDirectory(disk: Disk): string {
    Combine(disk.cwd, "Assets")
  }

  /** `ResolveTexturePath`: a fully qualified path is kept, any other is taken relative to the
      texture directory; a path that does not exist throws, naming the path as given. */
  function ResolveTexturePath(disk: Disk, texturePath: string): (r: Result<string>)
    ensures r.Success? ==> r.value in disk.existing
    ensures r.Success? && FullyQualified(texturePath) ==> r.value == texturePath
    ensures r.Success? && !FullyQualified(texturePath) ==>
              |r.value| == |TextureDirectory(disk)| + 1 + |texturePath| && r.value[|TextureDirectory(disk)| + 1..] == texturePath
              && r.value[..|TextureDirectory(disk)|] == TextureDirectory(disk)
    ensures r.Failure? ==> r.error == InvalidOperation(TextureNotFound(texturePath))
    ensures r.Failure? && FullyQualified(texturePath) ==> texturePath !in disk.existing
  {
    var resolvedPath := if FullyQualified(texturePath) then texturePath else Combine(TextureDirectory(disk), texturePath);
    if resolvedPath !in disk.existing then Failure(InvalidOperation(TextureNotFound(texturePath)))
    else Success(resolvedPath)
  }

  /** Resolution is idempotent when the current directory is fully qualified: a resolved path
      resolves to itself. */
  lemma ResolveIdempotent(disk: Disk, texturePath: string)
    requires FullyQualified(disk.cwd) && ResolveTexturePath(disk, texturePath).Success?
    ensures ResolveTexturePath(disk, ResolveTexturePath(disk, texturePath).value) == ResolveTexturePath(disk, texturePath)
  {
    var r := ResolveTexturePath(disk, texturePath).value;
    if !FullyQualified(texturePath) {
      assert r[0] == TextureDirectory(disk)[0] == disk.cwd[0];
    }
  }

  // ---------------------------------------------------------------- loaded meshes

  /** A `DataMesh` is the one `VisitMesh` builds from imported mesh `m`: the packed vertices and
      descriptors of its vertices, and a texture exactly when its material lists a diffuse one. */
  predicate Describes(dm: DataMesh, m: ImportedMesh, materials: seq<Material>) {
    && MeshOk(m, |materials|)
    && var vs := Vertices(m);
       && vs != []
       && dm.vertices == Packed(vs) && dm.attributes == Layout(vs[0])
       && (dm.texture != null <==> TexturePaths(materials[m.materialIndex], Diffuse) != [])
  }

  /** `ms` are the meshes built, in order, from the scene meshes numbered `idx`. */
  predicate Matches(ms: seq<DataMesh>, scene: ImportedScene, idx: seq<nat>) {
    && |ms| == |idx|
    && forall j :: 0 <= j < |idx| ==> idx[j] < |scene.meshes| && Describes(ms[j], scene.meshes[idx[j]], scene.materials)
  }

  lemma MatchesAppend(a: seq<DataMesh>, b: seq<DataMesh>, scene: ImportedScene, x: seq<nat>, y: seq<nat>)
    requires Matches(a, scene, x) && Matches(b, scene, y)
    ensures Matches(a + b, scene, x + y)
  {
    forall j | 0 <= j < |x + y|
      ensures (x + y)[j] < |scene.meshes| && Describes((a + b)[j], scene.meshes[(x + y)[j]], scene.materials)
    {
      if j >= |x| {
        assert (x + y)[j] == y[j - |x|] && (a + b)[j] == b[j - |a|];
      } else {
        assert (x + y)[j] == x[j] && (a + b)[j] == a[j];
      }
    }
  }

  // ---------------------------------------------------------------- loading, as a function

  /** What loading has done so far: the context's state, the paths of the cached textures in
      cache order, and every call issued on the context. */
  datatype Progress = Progress(state: GLData, cache: seq<Option<string>>, trace: seq<Call>)

  /** The paths of the textures `ts`, in order. */
  function CachePaths(ts: seq<Simple2DTexture>): (r: seq<Option<string>>)
    ensures |r| == |ts| && forall i :: 0 <= i < |ts| ==> r[i] == ts[i].filePath
    decreases |ts|
  {
    if ts == [] then [] else CachePaths(ts[..|ts| - 1]) + [ts[|ts| - 1].filePath]
  }

  /** One raw path of a material: resolved, then found in the cache, or else loaded from the file
      and appended to the cache; `None` when the path does not resolve or the load throws. */
  function LoadPath(disk: Disk, p: Progress, path: string): Option<Progress> {
    var resolved := ResolveTexturePath(disk, path);
    if resolved.Failure? then None
    else if Some(resolved.value) in p.cache then Some(p)
    else if !FileLoads(p.state, disk, resolved.value) then None
    else Some(Progress(FileLoaded(p.state, disk, resolved.value), p.cache + [Some(resolved.value)],
                       p.trace + FileLoadCalls(p.state, disk, resolved.value)))
  }

  /** The paths in order, from `p`; the first failure ends the run. */
  function LoadPaths(disk: Disk, p: Option<Progress>, paths: seq<string>): Option<Progress>
    decreases |paths|
  {
    if paths == [] then p
    else
      var before := LoadPaths(disk, p, paths[..|paths| - 1]);
      if before.None? then None else LoadPath(disk, before.value, paths[|paths| - 1])
  }

  /** The textures `VisitMesh` loads: the diffuse, specular, normal and height paths. */
  function LoadMaterial(disk: Disk, p: Progress, material: Material): Option<Progress> {
    LoadOthers(disk, LoadPaths(disk, Some(p), TexturePaths(material, Diffuse)), material)
  }

  /** The specular, normal and height paths, loaded after the diffuse ones. */
  function LoadOthers(disk: Disk, p: Option<Progress>, material: Material): Option<Progress> {
    var specular := LoadPaths(disk, p, TexturePaths(material, Specular));
    var normals := LoadPaths(disk, specular, TexturePaths(material, Normals));
    LoadPaths(disk, normals, TexturePaths(material, Height))
  }

  /** One mesh: its material's textures, then the packing, which throws on a mesh without
      vertices. A malformed mesh, which a consistent scene never has, counts as a failure so
      that the function is total. */
  function LoadMesh(disk: Disk, p: Progress, m: ImportedMesh, materials: seq<Material>): Option<Progress> {
    if !MeshOk(m, |materials|) then None
    else
      var loaded := LoadMaterial(disk, p, materials[m.materialIndex]);
      if loaded.Some? && m.positions != [] then loaded else None
  }

  /** The scene meshes numbered `idx`, in order, from `p`; the first failure ends the run (as
      does an index outside the scene, which a consistent scene never has). */
  function LoadMeshes(disk: Disk, p: Option<Progress>, scene: ImportedScene, idx: seq<nat>): Option<Progress>
    decreases |idx|
  {
    if idx == [] then p
    else
      var before := LoadMeshes(disk, p, scene, idx[..|idx| - 1]);
      if before.None? || idx[|idx| - 1] >= |scene.meshes| then None
      else LoadMesh(disk, before.value, scene.meshes[idx[|idx| - 1]], scene.materials)
  }

  /** `new Model(gl, path)` from progress `p`: `None` when it throws. */
  function LoadModel(disk: Disk, importer: map<string, ImportedScene>, path: Option<string>, p: Progress): Option<Progress> {
    if path.None? || path.value == "" || Rejected(Import(importer, path.value)) then None
    else
      var scene := Import(importer, path.value).value;
      LoadMeshes(disk, Some(p), scene, Preorder(scene.root.value))
  }

  lemma {:induction false} LoadPathsStopped(disk: Disk, paths: seq<string>)
    ensures LoadPaths(disk, None, paths) == None
    decreases |paths|
  {
    if paths != [] {
      LoadPathsStopped(disk, paths[..|paths| - 1]);
    }
  }

  lemma {:induction false} LoadPathsAppend(disk: Disk, p: Option<Progress>, a: seq<string>, b: seq<string>)
    ensures LoadPaths(disk, p, a + b) == LoadPaths(disk, LoadPaths(disk, p, a), b)
    decreases |b|
  {
    if b == [] {
      assert a + b == a;
    } else {
      assert (a + b)[..|a + b| - 1] == a + b[..|b| - 1];
      LoadPathsAppend(disk, p, a, b[..|b| - 1]);
    }
  }

  /** A run that failed after its first `k` paths fails as a whole. */
  lemma LoadPathsFailsEarly(disk: Disk, p: Option<Progress>, paths: seq<string>, k: nat)
    requires k <= |paths| && LoadPaths(disk, p, paths[..k]) == None
    ensures LoadPaths(disk, p, paths) == None
  {
    assert paths == paths[..k] + paths[k..];
    LoadPathsAppend(disk, p, paths[..k], paths[k..]);
    LoadPathsStopped(disk, paths[k..]);
  }

  lemma LoadOthersStopped(disk: Disk, material: Material)
    ensures LoadOthers(disk, None, material) == None
  {
    LoadPathsStopped(disk, TexturePaths(material, Specular));
    LoadPathsStopped(disk, TexturePaths(material, Normals));
    LoadPathsStopped(disk, TexturePaths(material, Height));
  }

  lemma {:induction false} LoadMeshesStopped(disk: Disk, scene: ImportedScene, idx: seq<nat>)
    ensures LoadMeshes(disk, None, scene, idx) == None
    decreases |idx|
  {
    if idx != [] {
      LoadMeshesStopped(disk, scene, idx[..|idx| - 1]);
    }
  }

  lemma {:induction false} LoadMeshesAppend(disk: Disk, p: Option<Progress>, scene: ImportedScene, a: seq<nat>, b: seq<nat>)
    ensures LoadMeshes(disk, p, scene, a + b) == LoadMeshes(disk, LoadMeshes(disk, p, scene, a), scene, b)
    decreases |b|
  {
    if b == [] {
      assert a + b == a;
    } else {
      assert (a + b)[..|a + b| - 1] == a + b[..|b| - 1];
      LoadMeshesAppend(disk, p, scene, a, b[..|b| - 1]);
    }
  }

  /** A run that failed after its first `k` meshes fails as a whole. */
  lemma LoadMeshesFailsEarly(disk: Disk, p: Option<Progress>, scene: ImportedScene, idx: seq<nat>, k: nat)
    requires k <= |idx| && LoadMeshes(disk, p, scene, idx[..k]) == None
    ensures LoadMeshes(disk, p, scene, idx) == None
  {
    assert idx == idx[..k] + idx[k..];
    LoadMeshesAppend(disk, p, scene, idx[..k], idx[k..]);
    LoadMeshesStopped(disk, scene, idx[k..]);
  }

  /** No two of the textures `ts` have the same path. */
  predicate DistinctPaths(ts: seq<Simple2DTexture>)
    decreases |ts|
  {
    ts == [] || (DistinctPaths(ts[..|ts| - 1]) && forall i :: 0 <= i < |ts| - 1 ==> ts[i].filePath != ts[|ts| - 1].filePath)
  }

  lemma {:induction false} DistinctPathsApart(ts: seq<Simple2DTexture>, i: nat, j: nat)
    requires DistinctPaths(ts) && i < j < |ts|
    ensures ts[i].filePath != ts[j].filePath
    decreases |ts|
  {
    if j < |ts| - 1 {
      DistinctPathsApart(ts[..|ts| - 1], i, j);
    }
  }

  /** A texture taken from slot `slots[k]` of a cache whose paths are distinct was in the old
      cache exactly when its path was. */
  lemma CacheSlots(before: seq<Simple2DTexture>, after: seq<Simple2DTexture>, ts: seq<Simple2DTexture>, slots: seq<nat>)
    requires before <= after && |ts| == |slots|
    requires forall k :: 0 <= k < |ts| ==> slots[k] < |after| && ts[k] == after[slots[k]]
    requires DistinctPaths(after)
    ensures forall k :: 0 <= k < |ts| ==>
              && ts[k] in after
              && (ts[k] in before <==> exists j :: 0 <= j < |before| && after[j].filePath == ts[k].filePath)
  {
    forall k | 0 <= k < |ts|
      ensures ts[k] in after
      ensures ts[k] in before <==> exists j :: 0 <= j < |before| && after[j].filePath == ts[k].filePath
    {
      assert after[slots[k]] == ts[k];
      if ts[k] in before {
        var j :| 0 <= j < |before| && before[j] == ts[k];
        assert after[j] == ts[k];
      }
      if exists j :: 0 <= j < |before| && after[j].filePath == ts[k].filePath {
        var j :| 0 <= j < |before| && after[j].filePath == ts[k].filePath;
        if j < slots[k] {
          DistinctPathsApart(after, j, slots[k]);
        } else if slots[k] < j {
          DistinctPathsApart(after, slots[k], j);
        }
      }
    }
  }

  /** The walk over `idx` one mesh further: the mesh `idx[i]` described by `dm` and loaded from
      `before` into `after`. */
  lemma WalkedOne(disk: Disk, p0: Progress, scene: ImportedScene, idx: seq<nat>, i: nat, added: seq<DataMesh>, dm: DataMesh,
                  before: Progress)
    requires i < |idx| && idx[i] < |scene.meshes|
    requires Matches(added, scene, idx[..i]) && LoadMeshes(disk, Some(p0), scene, idx[..i]) == Some(before)
    requires Describes(dm, scene.meshes[idx[i]], scene.materials)
    ensures Matches(added + [dm], scene, idx[..i + 1])
    ensures LoadMeshes(disk, Some(p0), scene, idx[..i + 1]) == LoadMesh(disk, before, scene.meshes[idx[i]], scene.materials)
  {
    assert idx[..i + 1][..i] == idx[..i];
    MatchesAppend(added, [dm], scene, idx[..i], [idx[i]]);
    assert idx[..i + 1] == idx[..i] + [idx[i]];
  }

  /** A walk over `idx` whose mesh `idx[i]` fails to load fails as a whole. */
  lemma WalkStops(disk: Disk, p0: Progress, scene: ImportedScene, idx: seq<nat>, i: nat, before: Progress)
    requires i < |idx| && idx[i] < |scene.meshes| && LoadMeshes(disk, Some(p0), scene, idx[..i]) == Some(before)
    requires LoadMesh(disk, before, scene.meshes[idx[i]], scene.materials) == None
    ensures LoadMeshes(disk, Some(p0), scene, idx) == None
  {
    assert idx[..i + 1][..i] == idx[..i];
    LoadMeshesFailsEarly(disk, Some(p0), scene, idx, i + 1);
  }

  /** A walk over the children that failed at child `k` fails as a whole. */
  lemma ChildrenFailEarly(disk: Disk, p: Option<Progress>, scene: ImportedScene, n: Node, k: nat)
    requires k < |n.children| && LoadMeshes(disk, p, scene, Children(n, k + 1)) == None
    ensures LoadMeshes(disk, p, scene, Children(n, |n.children|)) == None
  {
    ChildrenPrefix(n, k + 1, |n.children|);
    LoadMeshesFailsEarly(disk, p, scene, Children(n, |n.children|), |Children(n, k + 1)|);
  }

  // ---------------------------------------------------------------- the class

  class Model {
    const gl: GLState
    const disk: Disk
    var meshes: seq<DataMesh>
    var textureCache: seq<Simple2DTexture>

    /** The textures in the cache share the context and have distinct paths, and every mesh's
        texture comes from the cache. */
    ghost predicate Valid()
      reads this, gl
    {
      && gl.Valid()
      && (forall i :: 0 <= i < |textureCache| ==> textureCache[i].gl == gl && textureCache[i].filePath.Some?)
      && DistinctPaths(textureCache)
      && (forall i :: 0 <= i < |meshes| ==> meshes[i].gl == gl && (meshes[i].texture != null ==> meshes[i].texture in textureCache))
    }

    constructor Wrap(gl: GLState, disk: Disk)
      requires gl.Valid()
      ensures Valid() && this.gl == gl && this.disk == disk && meshes == [] && textureCache == []
    {
      this.gl := gl;
      this.disk := disk;
      meshes := [];
      textureCache := [];
    }

    /** The context and the cache as loading left them so far. */
    ghost function Now(): Progress
      reads this`textureCache, gl
    {
      Progress(gl.state, CachePaths(textureCache), gl.trace)
    }

    /** `Meshes`: the meshes loaded, in the order they were met. */
    function Meshes(): seq<DataMesh>
      reads this
    {
      meshes
    }

    /** `new Model(gl, path)`: a null or empty path throws before anything is imported; an import
        that fails, has no root node or is flagged incomplete throws; otherwise the meshes are
        those of the node tree in pre-order. Assimp's guarantees about the scenes it returns are
        taken as given. */
    static method New(gl: GLState, importer: map<string, ImportedScene>, disk: Disk, path: Option<string>) returns (r: Result<Model>)
      requires gl.Valid()
      requires forall p :: p in importer ==> Consistent(importer[p])
      modifies gl
      ensures gl.Valid()
      ensures (path.None? || path == Some("")) ==>
                r == Failure(ArgumentInvalid("path")) && gl.state == old(gl.state) && gl.trace == old(gl.trace)
      ensures path.Some? && path != Some("") && Rejected(Import(importer, path.value)) ==>
                r == Failure(InvalidOperation(ModelLoadFailed(path.value))) && gl.state == old(gl.state) && gl.trace == old(gl.trace)
      ensures r.Success? ==>
                && path.Some? && path != Some("") && !Rejected(Import(importer, path.value))
                && var scene := Import(importer, path.value).value;
                   && fresh(r.value) && r.value.gl == gl && r.value.disk == disk && r.value.Valid()
                   && Matches(r.value.Meshes(), scene, Preorder(scene.root.value))
      ensures var q := LoadModel(disk, importer, path, Progress(old(gl.state), [], old(gl.trace)));
              && (r.Success? <==> q.Some?)
              && (r.Success? ==> && gl.state == q.value.state && gl.trace == q.value.trace
                                 && CachePaths(r.value.textureCache) == q.value.cache)
    {
      if path.None? || path.value == "" {
        return Failure(ArgumentInvalid("path"));
      }
      var model := new Model.Wrap(gl, disk);
      var o := model.LoadModelData(importer, path.value);
      if o.Fail? {
        return Failure(o.error);
      }
      return Success(model);
    }

    /** `LoadModelData(path)`: import, reject a missing or incomplete scene, then walk the tree
        from the root. */
    method LoadModelData(importer: map<string, ImportedScene>, path: string) returns (o: Outcome)
      requires Valid() && meshes == []
      requires forall p :: p in importer ==> Consistent(importer[p])
      modifies this, gl
      ensures Valid()
      ensures Rejected(Import(importer, path)) ==>
                && o == Fail(InvalidOperation(ModelLoadFailed(path)))
                && gl.state == old(gl.state) && gl.trace == old(gl.trace)
                && meshes == old(meshes) && textureCache == old(textureCache)
      ensures o.Pass? ==> && !Rejected(Import(importer, path))
                          && var scene := Import(importer, path).value;
                             Matches(meshes, scene, Preorder(scene.root.value))
      ensures var scene := Import(importer, path);
              var q := if Rejected(scene) then None else LoadMeshes(disk, Some(old(Now())), scene.value, Preorder(scene.value.root.value));
              (o.Pass? <==> q.Some?) && (o.Pass? ==> Now() == q.value)
    {
      var scene := Import(importer, path);
      if scene.None? || scene.value.root.None? || scene.value.flags == SceneFlagsIncomplete {
        return Fail(InvalidOperation(ModelLoadFailed(path)));
      }
      ghost var added;
      o, added := VisitNode(scene.value.root.value, scene.value);
      assert [] + added == added;
    }

    /** `VisitNode`: the node's meshes in order, then each child in turn. On success the meshes
        appended are those of the subtree in pre-order. */
    method VisitNode(n: Node, scene: ImportedScene) returns (o: Outcome, ghost added: seq<DataMesh>)
      requires Valid() && NodeRefs(n, |scene.meshes|)
      requires forall i :: 0 <= i < |scene.meshes| ==> MeshOk(scene.meshes[i], |scene.materials|)
      modifies this, gl
      ensures Valid()
      ensures o.Pass? ==> meshes == old(meshes) + added && Matches(added, scene, Preorder(n))
      ensures var q := LoadMeshes(disk, Some(old(Now())), scene, Preorder(n));
              (o.Pass? <==> q.Some?) && (o.Pass? ==> Now() == q.value)
      decreases n, 1
    {
      ghost var own, sub;
      ghost var p0 := Now();
      LoadMeshesAppend(disk, Some(p0), scene, n.meshes, Children(n, |n.children|));
      added := [];
      o, own := VisitOwnMeshes(n, scene);
      if o.Fail? {
        LoadMeshesStopped(disk, scene, Children(n, |n.children|));
        return;
      }
      o, sub := VisitChildren(n, scene);
      if o.Fail? {
        return;
      }
      MatchesAppend(own, sub, scene, n.meshes, Children(n, |n.children|));
      SeqAssociates(old(meshes), own, sub);
      added := own + sub;
    }

    /** The first loop of `VisitNode`: the node's own meshes, in order. */
    method VisitOwnMeshes(n: Node, scene: ImportedScene) returns (o: Outcome, ghost added: seq<DataMesh>)
      requires Valid() && NodeRefs(n, |scene.meshes|)
      requires forall i :: 0 <= i < |scene.meshes| ==> MeshOk(scene.meshes[i], |scene.materials|)
      modifies this, gl
      ensures Valid()
      ensures o.Pass? ==> meshes == old(meshes) + added && Matches(added, scene, n.meshes)
      ensures var q := LoadMeshes(disk, Some(old(Now())), scene, n.meshes);
              (o.Pass? <==> q.Some?) && (o.Pass? ==> Now() == q.value)
    {
      ghost var p0 := Now();
      added := [];
      o := Pass;
      assert meshes == old(meshes) + added;
      for i := 0 to |n.meshes|
        invariant Valid() && o == Pass
        invariant Walked(n.meshes, i, scene, old(meshes), added, p0)
      {
        o, added := VisitOwnMesh(n.meshes, i, scene, old(meshes), added, p0);
        if o.Fail? {
          return;
        }
      }
      assert n.meshes[..|n.meshes|] == n.meshes;
    }

    /** After the first `i` of the mesh indices `idx`: the meshes appended to `start` describe
        them, and the context and cache are as `LoadMeshes` leaves them. */
    ghost predicate Walked(idx: seq<nat>, i: nat, scene: ImportedScene, start: seq<DataMesh>, added: seq<DataMesh>, p0: Progress)
      reads this, gl
    {
      && i <= |idx| && meshes == start + added && Matches(added, scene, idx[..i])
      && LoadMeshes(disk, Some(p0), scene, idx[..i]) == Some(Now())
    }

    /** One pass of the first loop: the node's mesh `idx[i]`. */
    method VisitOwnMesh(idx: seq<nat>, i: nat, scene: ImportedScene, ghost start: seq<DataMesh>, ghost added: seq<DataMesh>, ghost p0: Progress)
      returns (o: Outcome, ghost extended: seq<DataMesh>)
      requires Valid() && i < |idx| && idx[i] < |scene.meshes| && Walked(idx, i, scene, start, added, p0)
      requires forall i :: 0 <= i < |scene.meshes| ==> MeshOk(scene.meshes[i], |scene.materials|)
      modifies this, gl
      ensures Valid()
      ensures o.Pass? ==> Walked(idx, i + 1, scene, start, extended, p0)
      ensures o.Fail? ==> LoadMeshes(disk, Some(p0), scene, idx) == None
    {
      ghost var dm;
      ghost var before := Now();
      extended := added;
      o, dm := VisitMesh(scene.meshes[idx[i]], scene);
      if o.Fail? {
        WalkStops(disk, p0, scene, idx, i, before);
        return;
      }
      WalkedOne(disk, p0, scene, idx, i, added, dm, before);
      SeqAssociates(start, added, [dm]);
      extended := added + [dm];
    }

    /** The second loop of `VisitNode`: each child subtree, left to right. */
    method VisitChildren(n: Node, scene: ImportedScene) returns (o: Outcome, ghost added: seq<DataMesh>)
      requires Valid() && NodeRefs(n, |scene.meshes|)
      requires forall i :: 0 <= i < |scene.meshes| ==> MeshOk(scene.meshes[i], |scene.materials|)
      modifies this, gl
      ensures Valid()
      ensures o.Pass? ==> meshes == old(meshes) + added && Matches(added, scene, Children(n, |n.children|))
      ensures var q := LoadMeshes(disk, Some(old(Now())), scene, Children(n, |n.children|));
              (o.Pass? <==> q.Some?) && (o.Pass? ==> Now() == q.value)
      decreases n, 0
    {
      ghost var p0 := Now();
      added := [];
      o := Pass;
      assert meshes == old(meshes) + added;
      for k := 0 to |n.children|
        invariant Valid() && o == Pass
        invariant WalkedChildren(n, k, scene, old(meshes), added, p0)
      {
        o, added := VisitChild(n, k, scene, old(meshes), added, p0);
        if o.Fail? {
          return;
        }
      }
    }

    /** After the first `k` children of `n`: the meshes appended to `start` describe their
        subtrees, and the context and cache are as `LoadMeshes` leaves them. */
    ghost predicate WalkedChildren(n: Node, k: nat, scene: ImportedScene, start: seq<DataMesh>, added: seq<DataMesh>, p0: Progress)
      reads this, gl
    {
      && k <= |n.children| && meshes == start + added && Matches(added, scene, Children(n, k))
      && LoadMeshes(disk, Some(p0), scene, Children(n, k)) == Some(Now())
    }

    /** One pass of the second loop: child `k`'s subtree after the first `k`. */
    method VisitChild(n: Node, k: nat, scene: ImportedScene, ghost start: seq<DataMesh>, ghost added: seq<DataMesh>, ghost p0: Progress)
      returns (o: Outcome, ghost extended: seq<DataMesh>)
      requires k < |n.children| && Valid() && NodeRefs(n, |scene.meshes|)
      requires forall i :: 0 <= i < |scene.meshes| ==> MeshOk(scene.meshes[i], |scene.materials|)
      requires WalkedChildren(n, k, scene, start, added, p0)
      modifies this, gl
      ensures Valid()
      ensures o.Pass? ==> WalkedChildren(n, k + 1, scene, start, extended, p0)
      ensures o.Fail? ==> LoadMeshes(disk, Some(p0), scene, Children(n, |n.children|)) == None
      decreases n, 0, |n.children| - k
    {
      ghost var sub;
      extended := added;
      LoadMeshesAppend(disk, Some(p0), scene, Children(n, k), Preorder(n.children[k]));
      o, sub := VisitNode(n.children[k], scene);
      if o.Fail? {
        ChildrenFailEarly(disk, Some(p0), scene, n, k);
        return;
      }
      MatchesAppend(added, sub, scene, Children(n, k), Preorder(n.children[k]));
      SeqAssociates(start, added, sub);
      extended := added + sub;
    }

    /** `VisitMesh`: read the vertices, flatten the faces, load the four texture kinds, pack the
        vertices and append a `DataMesh` with the first diffuse texture, if any. */
    method VisitMesh(m: ImportedMesh, scene: ImportedScene) returns (o: Outcome, ghost dm: DataMesh?)
      requires Valid() && MeshOk(m, |scene.materials|)
      modifies this, gl
      ensures Valid()
      ensures o.Pass? ==> && dm != null && meshes == old(meshes) + [dm] && Describes(dm, m, scene.materials)
                          && (dm.texture != null ==>
                               && ResolveTexturePath(disk, TexturePaths(scene.materials[m.materialIndex], Diffuse)[0]).Success?
                               && dm.texture.filePath == Some(ResolveTexturePath(disk, TexturePaths(scene.materials[m.materialIndex], Diffuse)[0]).value))
      ensures o.Fail? ==> meshes == old(meshes)
      ensures var q := LoadMesh(disk, old(Now()), m, scene.materials);
              (o.Pass? <==> q.Some?) && (o.Pass? ==> Now() == q.value)
    {
      var vertices := ReadVertices(m);
      var indices := FlattenIndices(m.faces);
      dm := null;
      ghost var p0 := Now();
      var diffuseTextures := LoadTextures(scene.materials[m.materialIndex]);
      if diffuseTextures.Failure? {
        assert LoadMesh(disk, p0, m, scene.materials) == None;
        return Fail(diffuseTextures.error), null;
      }
      o, dm := AppendMesh(m, scene.materials, vertices[..], diffuseTextures.value);
      if o.Fail? {
        assert LoadMesh(disk, p0, m, scene.materials) == None;
        return;
      }
      assert LoadMesh(disk, p0, m, scene.materials) == Some(Now());
    }

    /** The end of `VisitMesh`: pack the vertices, which throws when there are none, and append a
        `DataMesh` with the first diffuse texture, if any. */
    method AppendMesh(m: ImportedMesh, materials: seq<Material>, vertices: seq<Vertex>, diffuse: seq<Simple2DTexture>)
      returns (o: Outcome, ghost dm: DataMesh?)
      requires Valid() && MeshOk(m, |materials|) && vertices == Vertices(m)
      requires |diffuse| == |TexturePaths(materials[m.materialIndex], Diffuse)|
      requires diffuse != [] ==> diffuse[0] in textureCache
      modifies this`meshes
      ensures Valid()
      ensures o.Pass? <==> m.positions != []
      ensures o.Pass? ==> && dm != null && meshes == old(meshes) + [dm] && Describes(dm, m, materials)
                          && (dm.texture != null ==> dm.texture == diffuse[0])
      ensures o.Fail? ==> meshes == old(meshes)
    {
      if |m.positions| > 0 {
        VerticesUniform(m);
        UniformFits(Vertices(m));
      }
      var meshData := BuildMeshData(vertices);
      if meshData.Failure? {
        return Fail(meshData.error), null;
      }
      var texture := if |diffuse| > 0 then diffuse[0] else null;
      var result := new DataMesh.Wrap(gl, meshData.value.attributes, meshData.value.vertices, texture);
      meshes := meshes + [result];
      o, dm := Pass, result;
    }

    /** The four `LoadMaterialTextures` calls of `VisitMesh`, diffuse, specular, normal and height
        in that order, the first failure ending the mesh; the diffuse textures are the only ones
        used afterwards. */
    method LoadTextures(material: Material) returns (r: Result<seq<Simple2DTexture>>)
      requires Valid()
      modifies this, gl
      ensures Valid() && meshes == old(meshes) && old(textureCache) <= textureCache
      ensures r.Success? ==>
                && |r.value| == |TexturePaths(material, Diffuse)|
                && (r.value != [] ==>
                      && ResolveTexturePath(disk, TexturePaths(material, Diffuse)[0]).Success?
                      && r.value[0].filePath == Some(ResolveTexturePath(disk, TexturePaths(material, Diffuse)[0]).value)
                      && r.value[0] in textureCache)
      ensures var q := LoadMaterial(disk, old(Now()), material);
              (r.Success? <==> q.Some?) && (r.Success? ==> Now() == q.value)
    {
      r := LoadMaterialTextures(material, Diffuse);
      if r.Failure? {
        LoadOthersStopped(disk, material);
        return;
      }
      ghost var diffuse := r.value;
      assert diffuse != [] ==> diffuse[0] in textureCache;
      var o := LoadOtherTextures(material);
      if o.Fail? {
        return Failure(o.error);
      }
    }

    /** The specular, normal and height calls, whose textures `VisitMesh` drops. */
    method LoadOtherTextures(material: Material) returns (o: Outcome)
      requires Valid()
      modifies this, gl
      ensures Valid() && meshes == old(meshes) && old(textureCache) <= textureCache
      ensures var q := LoadOthers(disk, Some(old(Now())), material);
              (o.Pass? <==> q.Some?) && (o.Pass? ==> Now() == q.value)
    {
      LoadPathsStopped(disk, TexturePaths(material, Normals));
      LoadPathsStopped(disk, TexturePaths(material, Height));
      var specularTextures := LoadMaterialTextures(material, Specular);
      if specularTextures.Failure? {
        return Fail(specularTextures.error);
      }
      var normalTextures := LoadMaterialTextures(material, Normals);
      if normalTextures.Failure? {
        return Fail(normalTextures.error);
      }
      var heightTextures := LoadMaterialTextures(material, Height);
      if heightTextures.Failure? {
        return Fail(heightTextures.error);
      }
      return Pass;
    }

    /** `textureCache.FirstOrDefault(t => t.FilePath == texturePath)`. */
    method FindCached(texturePath: string) returns (t: Simple2DTexture?)
      ensures t == null ==> forall i :: 0 <= i < |textureCache| ==> textureCache[i].filePath != Some(texturePath)
      ensures t != null ==> exists k :: && 0 <= k < |textureCache| && t == textureCache[k] && t.filePath == Some(texturePath)
                                        && forall i :: 0 <= i < k ==> textureCache[i].filePath != Some(texturePath)
    {
      for i := 0 to |textureCache|
        invariant forall j :: 0 <= j < i ==> textureCache[j].filePath != Some(texturePath)
      {
        if textureCache[i].filePath == Some(texturePath) {
          return textureCache[i];
        }
      }
      return null;
    }

    /** `new Simple2DTexture(gl, texturePath)`: a texture loaded from the resolved path. */
    method LoadTexture(texturePath: string) returns (r: Result<Simple2DTexture>)
      requires gl.Valid()
      modifies gl
      ensures gl.Valid()
      ensures r.Success? ==> fresh(r.value) && r.value.gl == gl && r.value.filePath == Some(texturePath)
      ensures r.Failure? ==> r.error == GLCallFailed || LoadImage(disk, texturePath) == Failure(r.error)
      ensures r.Success? <==> FileLoads(old(gl.state), disk, texturePath)
      ensures r.Success? ==> && gl.state == FileLoaded(old(gl.state), disk, texturePath)
                             && gl.trace == old(gl.trace) + FileLoadCalls(old(gl.state), disk, texturePath)
    {
      r := Simple2DTexture.FromFile(gl, disk, texturePath);
    }

    /** After the first `i` of `paths`: one texture per path, each taken from the cache and
        carrying its resolved path, and the context and cache as `LoadPaths` leaves them. */
    ghost predicate Listed(paths: seq<string>, i: nat, textures: seq<Simple2DTexture>, slots: seq<nat>, p0: Progress)
      reads this, gl
    {
      && i <= |paths| && |textures| == i && |slots| == i
      && (forall k :: 0 <= k < i ==> slots[k] < |textureCache| && textures[k] == textureCache[slots[k]])
      && (forall k :: 0 <= k < i ==>
            ResolveTexturePath(disk, paths[k]).Success? && textures[k].filePath == Some(ResolveTexturePath(disk, paths[k]).value))
      && LoadPaths(disk, Some(p0), paths[..i]) == Some(Now())
    }

    /** One turn of the loop of `LoadMaterialTextures`. */
    method LoadNext(paths: seq<string>, i: nat, textures: seq<Simple2DTexture>, ghost slots: seq<nat>, ghost p0: Progress)
      returns (r: Result<Simple2DTexture>, ghost slot: nat)
      requires Valid() && i < |paths| && Listed(paths, i, textures, slots, p0)
      modifies this, gl
      ensures Valid() && meshes == old(meshes) && old(textureCache) <= textureCache
      ensures forall t :: t in textureCache && t !in old(textureCache) ==> fresh(t)
      ensures r.Success? ==> Listed(paths, i + 1, textures + [r.value], slots + [slot], p0)
      ensures r.Failure? ==> LoadPaths(disk, Some(p0), paths) == None
      ensures r.Failure? ==>
                var resolved := ResolveTexturePath(disk, paths[i]);
                || r.error == GLCallFailed || resolved == Failure(r.error)
                || (resolved.Success? && LoadImage(disk, resolved.value) == Failure(r.error))
    {
      assert paths[..i + 1][..i] == paths[..i];
      ghost var before := textureCache;
      r, slot := LoadListed(paths[i]);
      if r.Failure? {
        LoadPathsFailsEarly(disk, Some(p0), paths, i + 1);
        return;
      }
      assert forall k :: 0 <= k < |before| ==> textureCache[k] == before[k];
    }

    /** One pass of the loop of `LoadMaterialTextures`: resolve the raw path, then reuse the
        cached texture for it, or else load it and append it to the cache. */
    method LoadListed(path: string) returns (r: Result<Simple2DTexture>, ghost slot: nat)
      requires Valid()
      modifies this, gl
      ensures Valid() && meshes == old(meshes) && old(textureCache) <= textureCache
      ensures forall t :: t in textureCache && t !in old(textureCache) ==> fresh(t)
      ensures var q := LoadPath(disk, old(Now()), path);
              (r.Success? <==> q.Some?) && (r.Success? ==> Now() == q.value)
      ensures r.Success? ==>
                && slot < |textureCache| && textureCache[slot] == r.value
                && ResolveTexturePath(disk, path).Success?
                && r.value.filePath == Some(ResolveTexturePath(disk, path).value)
      ensures r.Failure? ==>
                var resolved := ResolveTexturePath(disk, path);
                || r.error == GLCallFailed || resolved == Failure(r.error)
                || (resolved.Success? && LoadImage(disk, resolved.value) == Failure(r.error))
    {
      var texturePath := ResolveTexturePath(disk, path);
      if texturePath.Failure? {
        return Failure(texturePath.error), 0;
      }
      var cachedTexture := FindCached(texturePath.value);
      if cachedTexture != null {
        ghost var j :| 0 <= j < |textureCache| && cachedTexture == textureCache[j] && cachedTexture.filePath == Some(texturePath.value);
        assert CachePaths(textureCache)[j] == Some(texturePath.value);
        return Success(cachedTexture), j;
      }
      slot := |textureCache|;
      r := LoadIntoCache(texturePath.value);
    }

    /** The miss branch of that pass: load the texture at the resolved path, which no cached
        texture has, and append it to the cache. */
    method LoadIntoCache(resolved: string) returns (r: Result<Simple2DTexture>)
      requires Valid() && forall i :: 0 <= i < |textureCache| ==> textureCache[i].filePath != Some(resolved)
      modifies this, gl
      ensures Valid() && meshes == old(meshes)
      ensures r.Success? <==> FileLoads(old(gl.state), disk, resolved)
      ensures r.Failure? ==> && textureCache == old(textureCache)
                             && (r.error == GLCallFailed || LoadImage(disk, resolved) == Failure(r.error))
      ensures r.Success? ==> && fresh(r.value) && r.value.filePath == Some(resolved) && textureCache == old(textureCache) + [r.value]
                             && gl.state == FileLoaded(old(gl.state), disk, resolved)
                             && gl.trace == old(gl.trace) + FileLoadCalls(old(gl.state), disk, resolved)
    {
      r := LoadTexture(resolved);
      if r.Success? {
        assert (textureCache + [r.value])[..|textureCache|] == textureCache;
        textureCache := textureCache + [r.value];
      }
    }

    /** `LoadMaterialTextures(material, type)`: one texture per listed path, in order. A path
        already in the cache reuses the cached texture; any other is loaded once and appended to
        the cache, so the cache never holds two textures for one path. */
    method LoadMaterialTextures(material: Material, kind: TextureType) returns (r: Result<seq<Simple2DTexture>>)
      requires Valid()
      modifies this, gl
      ensures Valid() && meshes == old(meshes) && old(textureCache) <= textureCache
      ensures forall t :: t in textureCache && t !in old(textureCache) ==> fresh(t)
      ensures r.Success? ==>
                && |r.value| == |TexturePaths(material, kind)|
                && forall i :: 0 <= i < |r.value| ==>
                     && r.value[i] in textureCache
                     && ResolveTexturePath(disk, TexturePaths(material, kind)[i]).Success?
                     && r.value[i].filePath == Some(ResolveTexturePath(disk, TexturePaths(material, kind)[i]).value)
                     && (r.value[i] in old(textureCache) <==> exists j :: 0 <= j < |old(textureCache)| && textureCache[j].filePath == r.value[i].filePath)
      ensures r.Failure? ==> || r.error == GLCallFailed
                             || exists i :: && 0 <= i < |TexturePaths(material, kind)|
                                            && var resolved := ResolveTexturePath(disk, TexturePaths(material, kind)[i]);
                                               || resolved == Failure(r.error)
                                               || (resolved.Success? && LoadImage(disk, resolved.value) == Failure(r.error))
      ensures var q := LoadPaths(disk, Some(old(Now())), TexturePaths(material, kind));
              (r.Success? <==> q.Some?) && (r.Success? ==> Now() == q.value)
    {
      ghost var p0 := Now();
      var paths := TexturePaths(material, kind);
      var textureCount := |paths|;
      if textureCount == 0 {
        return Success([]);
      }
      var textures: seq<Simple2DTexture> := [];
      ghost var slots: seq<nat> := [];
      for i := 0 to textureCount
        invariant Valid() && meshes == old(meshes) && old(textureCache) <= textureCache
        invariant forall t :: t in textureCache && t !in old(textureCache) ==> fresh(t)
        invariant Listed(paths, i, textures, slots, p0)
      {
        var texture, slot := LoadNext(paths, i, textures, slots, p0);
        if texture.Failure? {
          return Failure(texture.error);
        }
        textures, slots := textures + [texture.value], slots + [slot];
      }
      assert paths[..textureCount] == paths;
      CacheSlots(old(textureCache), textureCache, textures, slots);
      return Success(textures);
    }
  }
}
