/** `MeshUploader` and `UploadedMesh` (Meshes/MeshUploader.cs, Meshes/UploadedMesh.cs): put a
    mesh's vertices and indices into a new vertex array, vertex buffer and element buffer, and
    leave all three bound. */
module MeshUpload {
  import opened Values
  import opened GL

  /** The two arrays a `Meshes.IMesh` exposes: interleaved float vertex data and uint indices. */
  datatype MeshData = MeshData(vertices: seq<real>, indices: seq<nat>)

  /** The handles of an uploaded mesh, fixed at construction, and the mesh they came from. */
  datatype UploadedMesh = UploadedMesh(vertexArrayObjectId: Handle, vertexBufferObjectId: Handle, elementBufferObjectId: Handle, sourceData: MeshData)
  {
    /** `Indices` reads through to the source mesh. */
    function Indices(): seq<nat> {
      sourceData.indices
    }
  }

  /** `new UploadedMesh(sourceData, vao, vbo, ebo)`: a null source is refused; otherwise the
      ids are kept exactly as passed and `Indices` is the source's. */
  function NewUploadedMesh(sourceData: Option<MeshData>, vao: Handle, vbo: Handle, ebo: Handle): (r: Result<UploadedMesh>)
    ensures r.Failure? <==> sourceData.None?
    ensures r.Failure? ==> r.error == ArgumentNull("sourceData")
    ensures r.Success? ==> && r.value.vertexArrayObjectId == vao && r.value.vertexBufferObjectId == vbo
                           && r.value.elementBufferObjectId == ebo && r.value.Indices() == sourceData.value.indices
  {
    match sourceData
    case None => Failure(ArgumentNull("sourceData"))
    case Some(m) => Success(UploadedMesh(vao, vbo, ebo, m))
  }

  // ---------------------------------------------------------------- one buffer

  /** The byte size `UploadDataToBuffer` passes: element count times `sizeof(uint)`, whatever the
      element type really is, computed as a 32-bit `int` and cast to `nuint`. */
  function UploadSize(data: Payload): (n: nat)
    ensures n == NativeByteCount(data.Count(), 4)
    ensures 4 * data.Count() < 0x8000_0000 ==> n == 4 * data.Count()
  {
    NativeByteCount(data.Count(), UIntSize)
  }

  /** What `UploadDataToBuffer` does with `data`: a null array fails, an empty one fails when
      element 0 is pinned, and anything else becomes one STATIC_DRAW upload of the whole array. */
  function Upload(s: GLData, target: BufferTarget, data: Option<Payload>): (r: Issued<()>)
    ensures data.None? ==> r == Issued(s, [], Failure(InvalidOperation(NullUpload)))
    ensures data.Some? && data.value.Count() == 0 ==> r == Issued(s, [], Failure(IndexOutOfRange))
    ensures data.Some? && data.value.Count() > 0 ==>
              && r.result.Success? && r.calls == [Buf(BufferData(target, UploadSize(data.value), data.value, StaticDraw))]
              && r.state == BufferStep(s, BufferData(target, UploadSize(data.value), data.value, StaticDraw))
  {
    match data
    case None => Issued(s, [], Failure(InvalidOperation(NullUpload)))
    case Some(d) =>
      if d.Count() == 0 then Issued(s, [], Failure(IndexOutOfRange))
      else
        var c := BufferData(target, UploadSize(d), d, StaticDraw);
        Issued(BufferStep(s, c), [Buf(c)], Success(()))
  }

  /** The upload lands in the buffer bound to the target; nothing else changes. */
  lemma UploadStores(s: GLData, target: BufferTarget, d: Payload)
    requires d.Count() > 0 && Bound(s, target) != 0
    requires Accepts(s.driver, Upload(s, target, Some(d)).calls)
    ensures var r := Upload(s, target, Some(d)).state;
            r == s.(buf := s.buf.(stores := s.buf.stores[Bound(s, target) := BufferStore(UploadSize(d), d, StaticDraw)]))
  {
    assert Upload(s, target, Some(d)).calls[0] !in s.driver.rejects;
  }

  method UploadDataToBuffer(gl: GLState, data: Option<Payload>, target: BufferTarget) returns (o: Outcome)
    requires gl.Valid()
    modifies gl
    ensures gl.Valid()
    ensures var u := Upload(old(gl.state), target, data);
            && gl.state == u.state && gl.trace == old(gl.trace) + u.calls
            && (o.Pass? <==> u.result.Success?) && (o.Fail? ==> o.error == u.result.error)
  {
    if data.None? {
      return Fail(InvalidOperation(NullUpload));
    }
    if data.value.Count() == 0 {
      return Fail(IndexOutOfRange);
    }
    gl.ApplyBuffer(BufferData(target, UploadSize(data.value), data.value, StaticDraw));
    return Pass;
  }

  // ---------------------------------------------------------------- the whole mesh

  /** Generate and bind a vertex array, then a vertex buffer on ArrayBuffer. */
  function OpenCalls(vao: Handle, vbo: Handle): seq<Call> {
    [Arr(GenVertexArray), Arr(BindVertexArray(vao)), Buf(GenBuffer), Buf(BindBuffer(ArrayBuffer, vbo))]
  }

  /** Generate an element buffer and bind it on ElementArrayBuffer. */
  function ElementCalls(ebo: Handle): seq<Call> {
    [Buf(GenBuffer), Buf(BindBuffer(ElementArrayBuffer, ebo))]
  }

  /** After generating and binding the vertex array `s.next` and the vertex buffer after it. */
  function Opened(s: GLData): GLData {
    BufferStep(Allocate(ArrayStep(Allocate(s), BindVertexArray(s.next))), BindBuffer(ArrayBuffer, s.next + 1))
  }

  /** After generating the element buffer `s.next` and binding it on ElementArrayBuffer. */
  function ElementBound(s: GLData): GLData {
    BufferStep(Allocate(s), BindBuffer(ElementArrayBuffer, s.next))
  }

  /** `UploadMeshDataToGpu(gl, mesh)`: vertex array, vertex buffer and its upload, element buffer
      and its upload, each failure ending the work where it happens. */
  function UploadMesh(s: GLData, mesh: MeshData): Issued<UploadedMesh> {
    var vao, vbo := s.next, s.next + 1;
    var vu := Upload(Opened(s), ArrayBuffer, Some(Floats(mesh.vertices)));
    if vu.result.Failure? then Issued(vu.state, OpenCalls(vao, vbo) + vu.calls, Failure(vu.result.error))
    else
      var ebo := vu.state.next;
      var iu := Upload(ElementBound(vu.state), ElementArrayBuffer, Some(UInts(mesh.indices)));
      var calls := OpenCalls(vao, vbo) + vu.calls + ElementCalls(ebo) + iu.calls;
      if iu.result.Failure? then Issued(iu.state, calls, Failure(iu.result.error))
      else Issued(iu.state, calls, Success(UploadedMesh(vao, vbo, ebo, mesh)))
  }

  lemma OpenedEffect(s: GLData)
    requires Accepts(s.driver, OpenCalls(s.next, s.next + 1))
    ensures Opened(s) == s.(live := s.live + {s.next, s.next + 1}, next := s.next + 2,
                            arr := s.arr.(vertexArray := s.next), buf := s.buf.(arrayBuffer := s.next + 1))
  {
    var cs := OpenCalls(s.next, s.next + 1);
    assert cs[1] !in s.driver.rejects && cs[3] !in s.driver.rejects;
  }

  lemma ElementBoundEffect(s: GLData)
    requires Buf(BindBuffer(ElementArrayBuffer, s.next)) !in s.driver.rejects
    ensures ElementBound(s) == s.(live := s.live + {s.next}, next := s.next + 1,
                                  buf := s.buf.(elementBuffers := s.buf.elementBuffers[s.arr.vertexArray := s.next]))
  {
  }

  /** With every call accepted: the upload fails exactly when the vertex or the index array is
      empty. On success the ids are the next three names in generation order (array, vertex
      buffer, element buffer); nothing is unbound, so the array is bound, ArrayBuffer holds the
      vertex buffer and the array records the element buffer; and the two buffers hold the
      vertices and indices, sized at four bytes per element. */
  lemma UploadMeshEffect(s: GLData, mesh: MeshData)
    requires WellFormed(s) && Accepts(s.driver, UploadMesh(s, mesh).calls)
    ensures var u := UploadMesh(s, mesh);
            && (u.result.Failure? <==> |mesh.vertices| == 0 || |mesh.indices| == 0)
            && (u.result.Failure? ==> u.result.error == IndexOutOfRange)
            && (u.result.Success? ==>
                  var m := u.result.value;
                  && m == UploadedMesh(s.next, s.next + 1, s.next + 2, mesh)
                  && u.state.live == s.live + {s.next, s.next + 1, s.next + 2}
                  && u.state.arr.vertexArray == m.vertexArrayObjectId
                  && Bound(u.state, ArrayBuffer) == m.vertexBufferObjectId
                  && Bound(u.state, ElementArrayBuffer) == m.elementBufferObjectId
                  && u.state.buf.stores == s.buf.stores[m.vertexBufferObjectId := BufferStore(UploadSize(Floats(mesh.vertices)), Floats(mesh.vertices), StaticDraw)]
                                                       [m.elementBufferObjectId := BufferStore(UploadSize(UInts(mesh.indices)), UInts(mesh.indices), StaticDraw)])
  {
    if |mesh.vertices| > 0 && |mesh.indices| > 0 {
      UploadedState(s, mesh);
    }
  }

  /** The state a complete upload leaves behind, when every call is accepted. */
  lemma UploadedState(s: GLData, mesh: MeshData)
    requires Accepts(s.driver, UploadMesh(s, mesh).calls) && |mesh.vertices| > 0 && |mesh.indices| > 0
    ensures UploadMesh(s, mesh).state ==
              s.(live := s.live + {s.next, s.next + 1, s.next + 2}, next := s.next + 3,
                 arr := s.arr.(vertexArray := s.next),
                 buf := BufferState(s.next + 1, s.buf.elementBuffers[s.next := s.next + 2],
                                    s.buf.stores[s.next + 1 := BufferStore(UploadSize(Floats(mesh.vertices)), Floats(mesh.vertices), StaticDraw)]
                                                [s.next + 2 := BufferStore(UploadSize(UInts(mesh.indices)), UInts(mesh.indices), StaticDraw)]))
  {
    var u := UploadMesh(s, mesh);
    VerticesUploaded(s, mesh);
    var vu := Upload(Opened(s), ArrayBuffer, Some(Floats(mesh.vertices)));
    assert u.calls[6] == Buf(BindBuffer(ElementArrayBuffer, vu.state.next)) && u.calls[6] !in s.driver.rejects;
    ElementBoundEffect(vu.state);
    var s3 := ElementBound(vu.state);
    assert u.calls[7] !in s.driver.rejects;
    UploadStores(s3, ElementArrayBuffer, UInts(mesh.indices));
  }

  /** The first half of a complete upload: the array and vertex buffer are bound, and the vertex
      buffer holds the vertices. */
  lemma VerticesUploaded(s: GLData, mesh: MeshData)
    requires Accepts(s.driver, UploadMesh(s, mesh).calls) && |mesh.vertices| > 0
    ensures Upload(Opened(s), ArrayBuffer, Some(Floats(mesh.vertices))).state ==
              s.(live := s.live + {s.next, s.next + 1}, next := s.next + 2,
                 arr := s.arr.(vertexArray := s.next),
                 buf := s.buf.(arrayBuffer := s.next + 1,
                               stores := s.buf.stores[s.next + 1 := BufferStore(UploadSize(Floats(mesh.vertices)), Floats(mesh.vertices), StaticDraw)]))
  {
    var u := UploadMesh(s, mesh);
    var open := OpenCalls(s.next, s.next + 1);
    AcceptsParts(s.driver, open, u.calls[4..]);
    assert u.calls == open + u.calls[4..];
    OpenedEffect(s);
    var s2 := Opened(s);
    var vu := Upload(s2, ArrayBuffer, Some(Floats(mesh.vertices)));
    assert u.calls[4] == vu.calls[0] && u.calls[4] !in s.driver.rejects;
    UploadStores(s2, ArrayBuffer, Floats(mesh.vertices));
  }

  method UploadMeshDataToGpu(gl: GLState, mesh: MeshData) returns (r: Result<UploadedMesh>)
    requires gl.Valid()
    modifies gl
    ensures gl.Valid()
    ensures var u := UploadMesh(old(gl.state), mesh);
            gl.state == u.state && gl.trace == old(gl.trace) + u.calls && r == u.result
  {
    ghost var s0, t0 := gl.state, gl.trace;
    var vaoId := gl.Gen(Arr(GenVertexArray));
    gl.ApplyArray(BindVertexArray(vaoId));
    var vboId := gl.Gen(Buf(GenBuffer));
    gl.ApplyBuffer(BindBuffer(ArrayBuffer, vboId));
    OpenLog(t0, gl.trace, vaoId, vboId);
    assert gl.state == Opened(s0);
    ghost var t1 := gl.trace;
    var o := UploadDataToBuffer(gl, Some(Floats(mesh.vertices)), ArrayBuffer);
    ghost var vu := Upload(Opened(s0), ArrayBuffer, Some(Floats(mesh.vertices)));
    if o.Fail? {
      assert UploadMesh(s0, mesh) == Issued(vu.state, OpenCalls(vaoId, vboId) + vu.calls, Failure(vu.result.error));
      return Failure(o.error);
    }
    ghost var t2 := gl.trace;
    var eboId := gl.Gen(Buf(GenBuffer));
    gl.ApplyBuffer(BindBuffer(ElementArrayBuffer, eboId));
    Appended2(t2, Buf(GenBuffer), Buf(BindBuffer(ElementArrayBuffer, eboId)));
    assert gl.state == ElementBound(vu.state);
    ghost var t3 := gl.trace;
    o := UploadDataToBuffer(gl, Some(UInts(mesh.indices)), ElementArrayBuffer);
    ghost var iu := Upload(ElementBound(vu.state), ElementArrayBuffer, Some(UInts(mesh.indices)));
    Regrouped(t0, OpenCalls(vaoId, vboId), vu.calls, ElementCalls(eboId), iu.calls);
    ghost var calls := OpenCalls(vaoId, vboId) + vu.calls + ElementCalls(eboId) + iu.calls;
    assert UploadMesh(s0, mesh) == Issued(iu.state, calls, if iu.result.Failure? then Failure(iu.result.error) else Success(UploadedMesh(vaoId, vboId, eboId, mesh)));
    if o.Fail? {
      return Failure(o.error);
    }
    return Success(UploadedMesh(vaoId, vboId, eboId, mesh));
  }

  lemma OpenLog(t0: seq<Call>, trace: seq<Call>, vao: Handle, vbo: Handle)
    requires trace == t0 + [Arr(GenVertexArray)] + [Arr(BindVertexArray(vao))] + [Buf(GenBuffer)] + [Buf(BindBuffer(ArrayBuffer, vbo))]
    ensures trace == t0 + OpenCalls(vao, vbo)
  {
  }
}
