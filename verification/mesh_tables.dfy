/** The meshes whose data is written into the source as constant arrays (Meshes/Quad.cs,
    Meshes/QuadWithColorData.cs, Meshes/QuadWithTextureCoordinates.cs,
    Meshes/CubeWithTextureData.cs, Meshes/CubeWithNormalsAndUV.cs): their attribute layouts,
    interleaved vertex floats and triangle indices, each with the shape it promises. The float
    arrays are written one row per vertex, as the source lays them out, and flattened. */
module MeshTables {
  import opened Values
  import opened GL
  import opened VertexLayout

  /** Descriptor built with the four-argument constructor, which records no payload. */
  function Untagged(elementCount: int, stride: nat, offset: int): Descriptor {
    Descriptor(elementCount, FloatType, stride, offset, None)
  }

  /** The rows of a table laid end to end. */
  function Flatten(rows: seq<seq<real>>): seq<real> {
    if rows == [] then [] else rows[0] + Flatten(rows[1..])
  }

  /** Flattening `n` rows of `k` floats gives `n * k` floats. */
  lemma {:induction false} FlattenLength(rows: seq<seq<real>>, k: nat)
    requires forall i :: 0 <= i < |rows| ==> |rows[i]| == k
    ensures |Flatten(rows)| == |rows| * k
  {
    if rows != [] {
      FlattenLength(rows[1..], k);
      assert |rows| * k == k + (|rows| - 1) * k;
    }
  }

  /** A flattened table of `k`-float rows. */
  function Table(rows: seq<seq<real>>, k: nat): (r: seq<real>)
    requires forall i :: 0 <= i < |rows| ==> |rows[i]| == k
    ensures |r| == |rows| * k
  {
    FlattenLength(rows, k);
    Flatten(rows)
  }

  // ---------------------------------------------------------------- Quad

  /** Four vertices of three floats each (the fourth has z = 0.5, as written). */
  function QuadVertices(): (r: seq<real>)
    ensures |r| == 12 && WholeVertices(r, 3) && |r| / 3 == 4
  {
    Table([
      [0.5, 0.5, 0.0],
      [0.5, -0.5, 0.0],
      [-0.5, -0.5, 0.0],
      [-0.5, 0.5, 0.5]
    ], 3)
  }

  /** Two triangles over the four vertices, using every one of them. */
  function QuadIndices(): (r: seq<nat>)
    ensures |r| == 6 && IndicesBelow(r, 4) && UsesEveryVertex(r, 4)
  {
    [0, 1, 3, 1, 2, 3]
  }

  // ---------------------------------------------------------------- QuadWithColorData

  /** Position (3 floats at 0) and RGBA colour (4 floats at 3), 7 floats per vertex. */
  function ColorQuadAttributes(): (r: seq<Descriptor>)
    ensures |r| == 2 && Tiles(r, 7)
  {
    [Untagged(3, 7, 0), Untagged(4, 7, 3)]
  }

  function ColorQuadVertices(): (r: seq<real>)
    ensures |r| == 28 && WholeVertices(r, 7) && |r| / 7 == 4
  {
    Table([
      [0.5, 0.5, 0.0, 1.0, 0.0, 0.0, 1.0],
      [0.5, -0.5, 0.0, 0.0, 0.0, 0.0, 1.0],
      [-0.5, -0.5, 0.0, 0.0, 0.0, 1.0, 1.0],
      [-0.5, 0.5, 0.5, 0.0, 0.0, 0.0, 1.0]
    ], 7)
  }

  /** `QuadWithColorData` repeats the quad's index table. */
  function ColorQuadIndices(): (r: seq<nat>)
    ensures |r| == 6 && IndicesBelow(r, 4) && UsesEveryVertex(r, 4)
  {
    QuadIndices()
  }

  // ---------------------------------------------------------------- QuadWithTextureCoordinates

  /** The layout as written: the texture coordinates are declared as 4 floats at offset 3 of a
      5-float vertex, although a vertex holds only 2 of them there. */
  function TexturedQuadAttributesAsWritten(): seq<Descriptor> {
    [Untagged(3, 5, 0), Untagged(4, 5, 3)]
  }

  /** The declared coordinate attribute runs 2 floats past the end of its vertex, so the layout
      is not a well-formed interleaving: each vertex's read spills into the next vertex. */
  lemma TexturedQuadOverflows()
    ensures var d := TexturedQuadAttributesAsWritten()[1];
            !FitsStride(d) && d.offset + d.elementCount == d.stride + 2
    ensures !WellLaidOut(TexturedQuadAttributesAsWritten(), 5)
  {
  }

  /** The layout the data has: position (3 at 0) and texture coordinates (2 at 3), which tile
      the 5-float vertex. */
  function TexturedQuadAttributes(): (r: seq<Descriptor>)
    ensures |r| == 2 && Tiles(r, 5)
    ensures r[0] == TexturedQuadAttributesAsWritten()[0]
    ensures r[1] == TexturedQuadAttributesAsWritten()[1].(elementCount := 2)
  {
    [Untagged(3, 5, 0), Untagged(2, 5, 3)]
  }

  function TexturedQuadVertices(): (r: seq<real>)
    ensures |r| == 20 && WholeVertices(r, 5) && |r| / 5 == 4
  {
    Table([
      [0.5, 0.5, 0.0, 1.0, 0.0],
      [0.5, -0.5, 0.0, 1.0, 1.0],
      [-0.5, -0.5, 0.0, 0.0, 1.0],
      [-0.5, 0.5, 0.5, 0.0, 0.0]
    ], 5)
  }

  /** `QuadWithTextureCoordinates` repeats the quad's index table. */
  function TexturedQuadIndices(): (r: seq<nat>)
    ensures |r| == 6 && IndicesBelow(r, 4) && UsesEveryVertex(r, 4)
  {
    QuadIndices()
  }

  // ---------------------------------------------------------------- CubeWithTextureData

  /** Position (3 at 0) and texture coordinates (2 at 3), 5 floats per vertex. */
  function TexturedCubeAttributes(): (r: seq<Descriptor>)
    ensures |r| == 2 && Tiles(r, 5)
  {
    [Untagged(3, 5, 0), Untagged(2, 5, 3)]
  }

  /** Six faces of two triangles each, listed corner by corner: position, then texture
      coordinates. */
  function TexturedCubeRows(): (r: seq<seq<real>>)
    ensures |r| == 36 && forall i :: 0 <= i < |r| ==> |r[i]| == 5
  {
    [
      [-0.5, -0.5, -0.5, 0.0, 0.0],
      [0.5, -0.5, -0.5, 1.0, 0.0],
      [0.5, 0.5, -0.5, 1.0, 1.0],
      [0.5, 0.5, -0.5, 1.0, 1.0],
      [-0.5, 0.5, -0.5, 0.0, 1.0],
      [-0.5, -0.5, -0.5, 0.0, 0.0],
      [-0.5, -0.5, 0.5, 0.0, 0.0],
      [0.5, -0.5, 0.5, 1.0, 0.0],
      [0.5, 0.5, 0.5, 1.0, 1.0],
      [0.5, 0.5, 0.5, 1.0, 1.0],
      [-0.5, 0.5, 0.5, 0.0, 1.0],
      [-0.5, -0.5, 0.5, 0.0, 0.0],
      [-0.5, 0.5, 0.5, 1.0, 0.0],
      [-0.5, 0.5, -0.5, 1.0, 1.0],
      [-0.5, -0.5, -0.5, 0.0, 1.0],
      [-0.5, -0.5, -0.5, 0.0, 1.0],
      [-0.5, -0.5, 0.5, 0.0, 0.0],
      [-0.5, 0.5, 0.5, 1.0, 0.0],
      [0.5, 0.5, 0.5, 1.0, 0.0],
      [0.5, 0.5, -0.5, 1.0, 1.0],
      [0.5, -0.5, -0.5, 0.0, 1.0],
      [0.5, -0.5, -0.5, 0.0, 1.0],
      [0.5, -0.5, 0.5, 0.0, 0.0],
      [0.5, 0.5, 0.5, 1.0, 0.0],
      [-0.5, -0.5, -0.5, 0.0, 1.0],
      [0.5, -0.5, -0.5, 1.0, 1.0],
      [0.5, -0.5, 0.5, 1.0, 0.0],
      [0.5, -0.5, 0.5, 1.0, 0.0],
      [-0.5, -0.5, 0.5, 0.0, 0.0],
      [-0.5, -0.5, -0.5, 0.0, 1.0],
      [-0.5, 0.5, -0.5, 0.0, 1.0],
      [0.5, 0.5, -0.5, 1.0, 1.0],
      [0.5, 0.5, 0.5, 1.0, 0.0],
      [0.5, 0.5, 0.5, 1.0, 0.0],
      [-0.5, 0.5, 0.5, 0.0, 0.0],
      [-0.5, 0.5, -0.5, 0.0, 1.0]
    ]
  }

  /** 36 vertices, none shared. */
  function TexturedCubeVertices(): (r: seq<real>)
    ensures |r| == 180 && WholeVertices(r, 5) && |r| / 5 == 36
  {
    Table(TexturedCubeRows(), 5)
  }

  /** Left over from the quad: six indices below 4, which the cube's draw ignores. */
  function TexturedCubeIndices(): (r: seq<nat>)
    ensures |r| == 6 && IndicesBelow(r, 4)
  {
    QuadIndices()
  }

  // ---------------------------------------------------------------- CubeWithNormalsAndUV

  /** Position (3 at 0), normal (3 at 3) and texture coordinates (2 at 6), 8 floats per vertex,
      each tagged with its payload; every attribute's list position is its standard slot. */
  function LitCubeAttributes(): (r: seq<Descriptor>)
    ensures |r| == 3 && Tiles(r, 8)
    ensures forall i :: 0 <= i < |r| ==> r[i].payload.Some? && GetStandardAttributeLocation(r[i].payload.value) == Success(i)
  {
    [Descriptor(3, FloatType, 8, 0, Some(Position)),
     Descriptor(3, FloatType, 8, 3, Some(Normal)),
     Descriptor(2, FloatType, 8, 6, Some(TextureCoordinates))]
  }

  /** Four vertices per face, each row position, normal, texture coordinates. */
  function LitCubeRows(): (r: seq<seq<real>>)
    ensures |r| == 24 && forall i :: 0 <= i < |r| ==> |r[i]| == 8
  {
    [
      [1.0, 1.0, -1.0, 0.0, 1.0, 0.0, 1.0, 1.0],
      [-1.0, 1.0, -1.0, 0.0, 1.0, 0.0, 0.0, 1.0],
      [-1.0, 1.0, 1.0, 0.0, 1.0, 0.0, 0.0, 0.0],
      [1.0, 1.0, 1.0, 0.0, 1.0, 0.0, 1.0, 0.0],
      [1.0, -1.0, 1.0, 0.0, 0.0, 1.0, 1.0, 0.0],
      [1.0, 1.0, 1.0, 0.0, 0.0, 1.0, 1.0, 1.0],
      [-1.0, 1.0, 1.0, 0.0, -0.0, 1.0, 0.0, 1.0],
      [-1.0, -1.0, 1.0, -0.0, -0.0, 1.0, 0.0, 0.0],
      [-1.0, -1.0, 1.0, -1.0, -0.0, 0.0, 0.0, 0.0],
      [-1.0, 1.0, 1.0, -1.0, 0.0, 0.0, 0.0, 1.0],
      [-1.0, 1.0, -1.0, -1.0, 0.0, 0.0, 1.0, 1.0],
      [-1.0, -1.0, -1.0, -1.0, 0.0, 0.0, 1.0, 0.0],
      [-1.0, -1.0, -1.0, 0.0, -1.0, 0.0, 0.0, 1.0],
      [1.0, -1.0, -1.0, 0.0, -1.0, 0.0, 1.0, 1.0],
      [1.0, -1.0, 1.0, 0.0, -1.0, 0.0, 1.0, 0.0],
      [-1.0, -1.0, 1.0, 0.0, -1.0, 0.0, 0.0, 0.0],
      [1.0, -1.0, -1.0, 1.0, 0.0, 0.0, 1.0, 0.0],
      [1.0, 1.0, -1.0, 1.0, 0.0, 0.0, 1.0, 1.0],
      [1.0, 1.0, 1.0, 1.0, 0.0, 0.0, 0.0, 1.0],
      [1.0, -1.0, 1.0, 1.0, 0.0, 0.0, 0.0, 0.0],
      [-1.0, -1.0, -1.0, 0.0, 0.0, -1.0, 0.0, 0.0],
      [-1.0, 1.0, -1.0, 0.0, 0.0, -1.0, 0.0, 1.0],
      [1.0, 1.0, -1.0, 0.0, 0.0, -1.0, 1.0, 1.0],
      [1.0, -1.0, -1.0, 0.0, 0.0, -1.0, 1.0, 0.0]
    ]
  }

  function LitCubeVertices(): (r: seq<real>)
    ensures |r| == 192 && WholeVertices(r, 8) && |r| / 8 == 24
  {
    Table(LitCubeRows(), 8)
  }

  /** Two triangles per face over that face's four vertices: 36 indices, all below 24, using
      every vertex. */
  function LitCubeIndices(): (r: seq<nat>)
    ensures |r| == 36 && IndicesBelow(r, 24) && UsesEveryVertex(r, 24)
  {
    [0, 1, 2, 0, 2, 3, 4, 5, 6, 4, 6, 7, 8, 9, 10, 8, 10, 11, 12, 13, 14, 12, 14, 15, 16, 17, 18, 16, 18, 19, 20, 21, 22, 20, 22, 23]
  }
}
