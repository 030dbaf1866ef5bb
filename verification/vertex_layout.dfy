/** Vertex attribute descriptors, the vertex record and the standard attribute slots
    (GLAbstractions/VertexAttributeDescriptor.cs, GLAbstractions/Vertex.cs,
    GLAbstractions/ShaderConstants.cs). */
module VertexLayout {
  import opened Values
  import opened GL

  /** What an attribute carries. The enumeration may hold more members than the three the engine
      gives a standard slot; `OtherPayload` stands for any of them. */
  datatype PayloadType = Position | Normal | TextureCoordinates | OtherPayload(code: int)

  /** One attribute of an interleaved float buffer: `elementCount` floats starting `offset` floats
      into each vertex, vertices `stride` floats apart (stride is a `uint` in the source). Only the
      five-argument constructor records a payload tag. */
  datatype Descriptor = Descriptor(elementCount: int, attribType: AttribType, stride: nat, offset: int, payload: Option<PayloadType>)

  datatype Vertex = Vertex(position: Vec3, normal: Option<Vec3>, uv: Option<Vec2>)

  /** The attribute slot the engine's shaders reserve for a payload. */
  function GetStandardAttributeLocation(t: PayloadType): (r: Result<nat>)
    ensures r.Success? <==> !t.OtherPayload?
    ensures r.Success? ==> r.value < 3
    ensures r.Failure? ==> r.error == ArgumentOutOfRange("type")
  {
    match t
    case Position => Success(0)
    case Normal => Success(1)
    case TextureCoordinates => Success(2)
    case OtherPayload(_) => Failure(ArgumentOutOfRange("type"))
  }

  /** The payload a standard slot is reserved for: the inverse of the map above. */
  function StandardPayload(slot: nat): (p: Option<PayloadType>)
    ensures p.Some? <==> slot < 3
  {
    if slot == 0 then Some(Position) else if slot == 1 then Some(Normal) else if slot == 2 then Some(TextureCoordinates) else None
  }

  /** The slot map is injective: every slot it hands out names exactly one payload, and every slot
      below 3 is handed out. */
  lemma {:induction false} StandardLocationRoundTrip(t: PayloadType, slot: nat)
    ensures GetStandardAttributeLocation(t) == Success(slot) <==> StandardPayload(slot) == Some(t)
  {
    match t
    case Position =>
    case Normal =>
    case TextureCoordinates =>
    case OtherPayload(_) =>
  }

  lemma StandardLocationInjective(a: PayloadType, b: PayloadType)
    requires GetStandardAttributeLocation(a).Success? && GetStandardAttributeLocation(a) == GetStandardAttributeLocation(b)
    ensures a == b
  {
    StandardLocationRoundTrip(a, GetStandardAttributeLocation(a).value);
    StandardLocationRoundTrip(b, GetStandardAttributeLocation(a).value);
  }

  // ---------------------------------------------------------------- layout invariants

  /** The attribute lies inside one vertex's `stride` floats. */
  predicate FitsStride(d: Descriptor) {
    0 <= d.offset && 0 <= d.elementCount && d.offset + d.elementCount <= d.stride
  }

  predicate Disjoint(a: Descriptor, b: Descriptor) {
    a.offset + a.elementCount <= b.offset || b.offset + b.elementCount <= a.offset
  }

  function TotalCount(ds: seq<Descriptor>): int {
    if ds == [] then 0 else ds[0].elementCount + TotalCount(ds[1..])
  }

  /** A well-formed interleaved layout: all descriptors share the stride, each fits in it, and no
      two overlap. */
  predicate WellLaidOut(ds: seq<Descriptor>, stride: nat) {
    && (forall i :: 0 <= i < |ds| ==> ds[i].stride == stride && FitsStride(ds[i]))
    && (forall i, j :: 0 <= i < j < |ds| ==> Disjoint(ds[i], ds[j]))
  }

  /** The layout covers every float of a vertex exactly once. */
  predicate Tiles(ds: seq<Descriptor>, stride: nat) {
    WellLaidOut(ds, stride) && TotalCount(ds) == stride
  }

  /** A float table holds whole vertices of the given stride. */
  predicate WholeVertices(floats: seq<real>, stride: nat) {
    stride > 0 && |floats| % stride == 0
  }

  predicate IndicesBelow(indices: seq<nat>, vertexCount: nat) {
    forall i :: 0 <= i < |indices| ==> indices[i] < vertexCount
  }

  predicate UsesEveryVertex(indices: seq<nat>, vertexCount: nat) {
    forall v :: 0 <= v < vertexCount ==> v in indices
  }
}
