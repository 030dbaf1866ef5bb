/** The array work of `Model` (Meshes/Model.cs): reading an imported mesh's vertices, flattening
    its faces into an index array, and `BuildMeshData`, which interleaves position, normal and
    texture coordinates into one float array with matching attribute descriptors. */
module MeshData {
  import opened Values
  import opened GL
  import opened VertexLayout
  import MeshTables

  // ---------------------------------------------------------------- imported meshes

  /** One face as imported: the vertex indices it lists. */
  datatype Face = Face(indices: seq<nat>)

  /** An Assimp mesh: per-vertex positions, and normals and first-channel texture coordinates
      when the file has them; its faces; the index of its material in the scene. */
  datatype ImportedMesh = ImportedMesh(positions: seq<Vec3>, normals: Option<seq<Vec3>>, uvs: Option<seq<Vec2>>,
                                       faces: seq<Face>, materialIndex: nat)

  /** What Assimp guarantees of a mesh it returns after triangulation: one normal and one UV per
      vertex when present, at most three indices per face, and a material that exists. */
  predicate MeshOk(m: ImportedMesh, materialCount: nat) {
    && (m.normals.Some? ==> |m.normals.value| == |m.positions|)
    && (m.uvs.Some? ==> |m.uvs.value| == |m.positions|)
    && (forall i :: 0 <= i < |m.faces| ==> |m.faces[i].indices| <= 3)
    && m.materialIndex < materialCount
  }

  /** The vertex `i` of an imported mesh, as the vertex loop of `VisitMesh` builds it. */
  function VertexAt(m: ImportedMesh, i: nat): Vertex
    requires i < |m.positions|
    requires m.normals.Some? ==> |m.normals.value| == |m.positions|
    requires m.uvs.Some? ==> |m.uvs.value| == |m.positions|
  {
    Vertex(m.positions[i],
           if m.normals.Some? then Some(m.normals.value[i]) else None,
           if m.uvs.Some? then Some(m.uvs.value[i]) else None)
  }

  /** The vertex loop of `VisitMesh`: one `Vertex` per imported position, carrying a normal and a
      UV exactly when the mesh has them. */
  method ReadVertices(m: ImportedMesh) returns (vertices: array<Vertex>)
    requires m.normals.Some? ==> |m.normals.value| == |m.positions|
    requires m.uvs.Some? ==> |m.uvs.value| == |m.positions|
    ensures fresh(vertices) && vertices[..] == Vertices(m)
  {
    vertices := new Vertex[|m.positions|];
    for i := 0 to |m.positions|
      invariant forall k :: 0 <= k < i ==> vertices[k] == VertexAt(m, k)
    {
      var normal: Option<Vec3> := None;
      var uv: Option<Vec2> := None;
      if m.normals.Some? {
        normal := Some(m.normals.value[i]);
      }
      if m.uvs.Some? {
        uv := Some(m.uvs.value[i]);
      }
      vertices[i] := Vertex(m.positions[i], normal, uv);
    }
  }

  /** The vertices of an imported mesh as a sequence. */
  function Vertices(m: ImportedMesh): (vs: seq<Vertex>)
    requires m.normals.Some? ==> |m.normals.value| == |m.positions|
    requires m.uvs.Some? ==> |m.uvs.value| == |m.positions|
    ensures |vs| == |m.positions| && forall i :: 0 <= i < |vs| ==> vs[i] == VertexAt(m, i)
  {
    seq(|m.positions|, i requires 0 <= i < |m.positions| => VertexAt(m, i))
  }

  /** Every vertex read from one mesh has the same shape. */
  lemma VerticesUniform(m: ImportedMesh)
    requires m.normals.Some? ==> |m.normals.value| == |m.positions|
    requires m.uvs.Some? ==> |m.uvs.value| == |m.positions|
    ensures Uniform(Vertices(m))
  {
  }

  // ---------------------------------------------------------------- face indices

  /** A face's indices padded to three with the zeros the array starts with. */
  function Padded(f: Face): (t: seq<nat>)
    requires |f.indices| <= 3
    ensures |t| == 3 && t[..|f.indices|] == f.indices
    ensures forall j :: |f.indices| <= j < 3 ==> t[j] == 0
  {
    f.indices + seq(3 - |f.indices|, _ => 0)
  }

  /** The index array of a triangulated mesh: three slots per face, in face order. */
  function Flattened(faces: seq<Face>): (r: seq<nat>)
    requires forall i :: 0 <= i < |faces| ==> |faces[i].indices| <= 3
    ensures |r| == 3 * |faces|
    decreases |faces|
  {
    if faces == [] then [] else Flattened(faces[..|faces| - 1]) + Padded(faces[|faces| - 1])
  }

  /** Index `j` of face `i` lands at `i * 3 + j`; slots a short face leaves are zero. */
  lemma {:induction false} FlattenedAt(faces: seq<Face>, i: nat, j: nat)
    requires forall k :: 0 <= k < |faces| ==> |faces[k].indices| <= 3
    requires i < |faces| && j < 3
    ensures Flattened(faces)[i * 3 + j] == if j < |faces[i].indices| then faces[i].indices[j] else 0
    decreases |faces|
  {
    var n := |faces| - 1;
    var front := faces[..n];
    assert Flattened(faces) == Flattened(front) + Padded(faces[n]);
    if i < n {
      assert front[i] == faces[i];
      FlattenedAt(front, i, j);
    } else if j < |faces[i].indices| {
      assert Padded(faces[n])[..|faces[n].indices|][j] == faces[i].indices[j];
    }
  }

  /** The face loop of `VisitMesh`: an array of `3 * faces` indices, filled face by face. */
  method FlattenIndices(faces: seq<Face>) returns (indices: array<nat>)
    requires forall i :: 0 <= i < |faces| ==> |faces[i].indices| <= 3
    ensures fresh(indices) && indices[..] == Flattened(faces)
  {
    indices := new nat[|faces| * 3](_ => 0);
    for i := 0 to |faces|
      invariant indices[..i * 3] == Flattened(faces[..i])
      invariant forall p :: i * 3 <= p < indices.Length ==> indices[p] == 0
    {
      var face := faces[i];
      for j := 0 to |face.indices|
        invariant indices[..i * 3] == Flattened(faces[..i])
        invariant forall p :: i * 3 <= p < i * 3 + j ==> indices[p] == face.indices[p - i * 3]
        invariant forall p :: i * 3 + j <= p < indices.Length ==> indices[p] == 0
      {
        indices[i * 3 + j] := face.indices[j];
      }
      assert faces[..i + 1][..i] == faces[..i];
      assert indices[i * 3..i * 3 + 3] == Padded(face);
      assert indices[..(i + 1) * 3] == indices[..i * 3] + indices[i * 3..i * 3 + 3];
    }
    assert faces[..|faces|] == faces;
    assert indices[..] == indices[..|faces| * 3];
  }

  // ---------------------------------------------------------------- interleaved layout

  /** Floats per vertex for a vertex of this shape: position, then normal, then UV. */
  function Stride(v: Vertex): nat {
    3 + (if v.normal.Some? then 3 else 0) + (if v.uv.Some? then 2 else 0)
  }

  /** Where the UV pair starts within a vertex: after the normal when there is one. */
  function UvOffset(v: Vertex): nat {
    if v.normal.Some? then 6 else 3
  }

  /** The descriptors `BuildMeshData` emits for a first vertex of this shape. */
  function Layout(v: Vertex): seq<Descriptor> {
    var s := Stride(v);
    [MeshTables.Untagged(3, s, 0)]
    + (if v.normal.Some? then [MeshTables.Untagged(3, s, 3)] else [])
    + (if v.uv.Some? then [MeshTables.Untagged(2, s, UvOffset(v))] else [])
  }

  /** Position (3 floats at 0) always; normal (3 at 3) exactly when the vertex has one; UV (2 at 6,
      or at 3 without a normal) exactly when it has one; together they fill the stride with no
      overlap. */
  lemma LayoutTiles(v: Vertex)
    ensures var ds := Layout(v);
            && |ds| == 1 + (if v.normal.Some? then 1 else 0) + (if v.uv.Some? then 1 else 0)
            && ds[0] == MeshTables.Untagged(3, Stride(v), 0)
            && (v.normal.Some? ==> ds[1] == MeshTables.Untagged(3, Stride(v), 3))
            && (v.uv.Some? ==> ds[|ds| - 1] == MeshTables.Untagged(2, Stride(v), UvOffset(v)))
            && Tiles(ds, Stride(v))
  {
    var ds := Layout(v);
    assert TotalCount(ds) == Stride(v) by {
      assert TotalCount(ds[|ds|..]) == 0;
      if |ds| == 3 {
        assert TotalCount(ds[1..]) == 3 + TotalCount(ds[2..]);
      }
    }
  }

  /** The vertex slot `k` is one `BuildMeshData` writes for this vertex. */
  predicate Covers(v: Vertex, k: nat) {
    || k < 3
    || (v.normal.Some? && 3 <= k < 6)
    || (v.uv.Some? && UvOffset(v) <= k < UvOffset(v) + 2)
  }

  /** The float written at slot `k` of a vertex. */
  function Component(v: Vertex, k: nat): real
    requires Covers(v, k)
  {
    if k == 0 then v.position.x
    else if k == 1 then v.position.y
    else if k == 2 then v.position.z
    else if v.normal.Some? && k == 3 then v.normal.value.x
    else if v.normal.Some? && k == 4 then v.normal.value.y
    else if v.normal.Some? && k == 5 then v.normal.value.z
    else if k == UvOffset(v) then v.uv.value.x
    else v.uv.value.y
  }

  lemma CoversBelowStride(v: Vertex, k: nat)
    ensures Covers(v, k) ==> k < Stride(v)
    ensures k < Stride(v) ==> Covers(v, k)
  {
  }

  /** Vertex `j`, placed `stride` floats apart, writes array slot `p`. */
  predicate Writes(vs: seq<Vertex>, stride: nat, j: nat, p: nat)
    requires j < |vs|
  {
    j * stride <= p && Covers(vs[j], p - j * stride)
  }

  /** The array slot `p` after the first `i` vertices are written: the value of the last of them
      that writes `p`, or the zero the array starts with. */
  function SlotAfter(vs: seq<Vertex>, stride: nat, i: nat, p: nat): real
    requires i <= |vs|
    decreases i
  {
    if i == 0 then 0.0
    else if Writes(vs, stride, i - 1, p) then Component(vs[i - 1], p - (i - 1) * stride)
    else SlotAfter(vs, stride, i - 1, p)
  }

  /** The float array `BuildMeshData` returns: `|vs|` times the first vertex's stride, each slot
      holding what the last vertex writing it put there. */
  function Packed(vs: seq<Vertex>): (r: seq<real>)
    requires vs != []
    ensures |r| == |vs| * Stride(vs[0])
  {
    var s := Stride(vs[0]);
    seq(|vs| * s, p requires 0 <= p < |vs| * s => SlotAfter(vs, s, |vs|, p))
  }

  /** Each vertex's writes end inside the array sized by the first vertex's stride: otherwise
      the C# code indexes past the end. */
  predicate Fits(vs: seq<Vertex>)
    requires vs != []
  {
    forall i :: 0 <= i < |vs| ==> i * Stride(vs[0]) + Stride(vs[i]) <= |vs| * Stride(vs[0])
  }

  /** All vertices have the first vertex's shape. */
  predicate Uniform(vs: seq<Vertex>) {
    forall i :: 0 <= i < |vs| ==> vs[i].normal.Some? == vs[0].normal.Some? && vs[i].uv.Some? == vs[0].uv.Some?
  }

  lemma UniformFits(vs: seq<Vertex>)
    requires vs != [] && Uniform(vs)
    ensures Fits(vs)
  {
    var s := Stride(vs[0]);
    forall i | 0 <= i < |vs| ensures i * s + Stride(vs[i]) <= |vs| * s {
      assert i * s + s == (i + 1) * s;
      MonotoneProduct(i + 1, |vs|, s);
    }
  }

  lemma MonotoneProduct(a: nat, b: nat, s: nat)
    requires a <= b
    ensures a * s <= b * s
  {
  }

  /** Only vertex `i` writes slot `i * stride + k` when all strides agree: later vertices start
      past it, so the last writer is `i`. */
  lemma {:induction false} SlotOfOwner(vs: seq<Vertex>, stride: nat, n: nat, i: nat, k: nat)
    requires n <= |vs| && i < n && k < stride && Covers(vs[i], k)
    ensures SlotAfter(vs, stride, n, i * stride + k) == Component(vs[i], k)
    decreases n
  {
    if n - 1 != i {
      assert (i + 1) * stride <= (n - 1) * stride by {
        MonotoneProduct(i + 1, n - 1, stride);
      }
      assert !Writes(vs, stride, n - 1, i * stride + k);
      SlotOfOwner(vs, stride, n - 1, i, k);
    } else {
      assert (i * stride + k) - i * stride == k;
    }
  }

  /** With every vertex shaped like the first, the packed array holds `n * stride` floats and slot
      `i * stride + k` reads back component `k` of vertex `i`. */
  lemma PackedReadsBack(vs: seq<Vertex>, i: nat, k: nat)
    requires vs != [] && Uniform(vs) && i < |vs| && k < Stride(vs[0])
    ensures i * Stride(vs[0]) + k < |Packed(vs)|
    ensures Covers(vs[i], k) && Packed(vs)[i * Stride(vs[0]) + k] == Component(vs[i], k)
  {
    var s := Stride(vs[0]);
    MonotoneProduct(i + 1, |vs|, s);
    assert i * s + k < (i + 1) * s;
    CoversBelowStride(vs[i], k);
    SlotOfOwner(vs, s, |vs|, i, k);
  }

  /** The result of `BuildMeshData`. */
  datatype MeshArrays = MeshArrays(vertices: seq<real>, attributes: seq<Descriptor>)

  /** One pass of the packing loop: vertex `v`'s floats written from `base` on. */
  method WriteVertex(data: array<real>, v: Vertex, base: nat)
    requires base + Stride(v) <= data.Length
    modifies data
    ensures forall p :: 0 <= p < data.Length ==>
              data[p] == if base <= p && Covers(v, p - base) then Component(v, p - base) else old(data[p])
  {
    data[base] := v.position.x;
    data[base + 1] := v.position.y;
    data[base + 2] := v.position.z;
    if v.normal.Some? {
      data[base + 3] := v.normal.value.x;
      data[base + 4] := v.normal.value.y;
      data[base + 5] := v.normal.value.z;
    }
    if v.uv.Some? {
      var uvOffset := if v.normal.Some? then 6 else 3;
      data[base + uvOffset] := v.uv.value.x;
      data[base + uvOffset + 1] := v.uv.value.y;
    }
  }

  /** `BuildMeshData(vertices)`: the stride and descriptors follow the first vertex (an empty
      array throws), then every vertex is written at `i * stride`. A vertex with more attributes
      than the first writes into its neighbour or, at the end, past the array, which throws; the
      writes of one vertex run in increasing order, so that happens exactly when its last slot is
      past the end. */
  method BuildMeshData(vertices: seq<Vertex>) returns (r: Result<MeshArrays>)
    ensures r.Success? <==> vertices != [] && Fits(vertices)
    ensures r.Failure? ==> r.error == IndexOutOfRange
    ensures r.Success? ==> r.value.vertices == Packed(vertices) && r.value.attributes == Layout(vertices[0])
  {
    if |vertices| == 0 {
      return Failure(IndexOutOfRange);
    }
    var first := vertices[0];
    var attributeStride := 3;
    if first.normal.Some? {
      attributeStride := attributeStride + 3;
    }
    if first.uv.Some? {
      attributeStride := attributeStride + 2;
    }
    var attributes := [MeshTables.Untagged(3, attributeStride, 0)];
    if first.normal.Some? {
      attributes := attributes + [MeshTables.Untagged(3, attributeStride, 3)];
    }
    if first.uv.Some? {
      var offset := if first.normal.Some? then 6 else 3;
      attributes := attributes + [MeshTables.Untagged(2, attributeStride, offset)];
    }
    var vertexData := new real[|vertices| * attributeStride](_ => 0.0);
    var i := 0;
    while i < |vertices|
      invariant 0 <= i <= |vertices|
      invariant forall p :: 0 <= p < vertexData.Length ==> vertexData[p] == SlotAfter(vertices, attributeStride, i, p)
      invariant forall j :: 0 <= j < i ==> j * attributeStride + Stride(vertices[j]) <= vertexData.Length
    {
      var offset := i * attributeStride;
      if offset + Stride(vertices[i]) > vertexData.Length {
        return Failure(IndexOutOfRange);
      }
      WriteVertex(vertexData, vertices[i], offset);
      i := i + 1;
    }
    return Success(MeshArrays(vertexData[..], attributes));
  }
}
