/** `BufferedMesh` (GLAbstractions/BufferedMesh.cs): a mesh uploaded to the context as an element
    buffer, a vertex buffer and a vertex array over both. */
module BufferedMeshes {
  import opened Values
  import opened GL
  import opened BufferObjects
  import opened VertexArrays
  import opened VertexLayout
  import opened Uniforms
  import opened Actions
  import opened Drawing
  import opened MeshTables
  import opened Meshes
  import opened TexturedMeshes

  /** The meshes a `BufferedMesh` is built over. Only the textured quad defines the
      `PrepareForDrawing` hook the buffered mesh calls. */
  datatype MeshSource =
    | TexturedQuadSource(quad: QuadWithTextureCoordinates)
    | DataSource(data: DataMesh)
    | LitCubeSource(cube: CubeWithNormalsAndUV)
  {
    function Attributes(): seq<Descriptor> {
      match this
      case TexturedQuadSource(_) => TexturedQuadAttributesAsWritten()
      case DataSource(m) => m.attributes
      case LitCubeSource(_) => LitCubeAttributes()
    }

    function Vertices(): seq<real> {
      match this
      case TexturedQuadSource(_) => TexturedQuadVertices()
      case DataSource(m) => m.vertices
      case LitCubeSource(_) => LitCubeVertices()
    }

    function Indices(): seq<nat> {
      match this
      case TexturedQuadSource(_) => TexturedQuadIndices()
      case DataSource(m) => m.Indices()
      case LitCubeSource(_) => LitCubeIndices()
    }

    /** The number of indices of each mesh's table. */
    function IndexCount(): nat {
      match this
      case TexturedQuadSource(_) => 6
      case DataSource(_) => 0
      case LitCubeSource(_) => 36
    }

    lemma IndexCountIsLength()
      ensures IndexCount() == |Indices()|
    {
    }

    function Context(): GLState {
      match this
      case TexturedQuadSource(q) => q.gl
      case DataSource(m) => m.gl
      case LitCubeSource(c) => c.gl
    }

    /** The mesh object itself. */
    function Holder(): object {
      match this
      case TexturedQuadSource(q) => q
      case DataSource(m) => m
      case LitCubeSource(c) => c
    }

    ghost predicate Valid()
      reads Context()
      reads if TexturedQuadSource? then {quad} else if DataSource? then {data} else {cube}
    {
      match this
      case TexturedQuadSource(q) => q.Valid()
      case DataSource(m) => m.Valid()
      case LitCubeSource(c) => c.Valid()
    }

    /** The transformation `PrepareForDrawing` applies: the quad's own; the other meshes have
        none. */
    function Transformation(): Option<Mat4>
      reads if TexturedQuadSource? then {quad} else {}
    {
      if TexturedQuadSource? then quad.transformation else None
    }

    /** The steps of `PrepareForDrawing` with the transformation `t`; none for the meshes that
        do not define it. */
    function PrepareWith(t: Option<Mat4>): seq<Action> {
      match this
      case TexturedQuadSource(q) => TexturedQuadPrepare(q.texture.handle, q.shaders.handle, t)
      case _ => []
    }

    /** The steps of `PrepareForDrawing`. */
    function Prepare(): seq<Action>
      reads if TexturedQuadSource? then {quad} else {}
    {
      PrepareWith(Transformation())
    }
  }

  // ---------------------------------------------------------------- attribute pointers

  /** The calls of the first `n` rounds of `ActivateVertexAttributes`: round `i` points slot `i`
      at descriptor `i`. */
  function Pointers(h: Handle, ds: seq<Descriptor>, n: nat, elementSize: nat): (cs: seq<Call>)
    requires n <= |ds|
    ensures |cs| == 4 * n
    decreases n
  {
    if n == 0 then []
    else
      var d := ds[n - 1];
      Pointers(h, ds, n - 1, elementSize) + PointerCalls(h, n - 1, d.elementCount, d.attribType, d.stride, d.offset, elementSize)
  }

  /** The state after the first `n` rounds. */
  function PointedAll(s: GLData, h: Handle, ds: seq<Descriptor>, n: nat, elementSize: nat): GLData
    requires n <= |ds|
    decreases n
  {
    if n == 0 then s
    else
      var d := ds[n - 1];
      Pointed(PointedAll(s, h, ds, n - 1, elementSize), h, n - 1, d.elementCount, d.attribType, d.stride, d.offset, elementSize)
  }

  /** One more round of `ActivateVertexAttributes` after a log `t0` of the first `i`. */
  lemma Round(t0: seq<Call>, s: GLData, h: Handle, ds: seq<Descriptor>, i: nat, elementSize: nat, trace: seq<Call>, r: GLData)
    requires i < |ds|
    requires trace == t0 + Pointers(h, ds, i, elementSize) + PointerCalls(h, i, ds[i].elementCount, ds[i].attribType, ds[i].stride, ds[i].offset, elementSize)
    requires r == Pointed(PointedAll(s, h, ds, i, elementSize), h, i, ds[i].elementCount, ds[i].attribType, ds[i].stride, ds[i].offset, elementSize)
    ensures trace == t0 + Pointers(h, ds, i + 1, elementSize) && r == PointedAll(s, h, ds, i + 1, elementSize)
  {
  }

  /** Round `i` issues, third, the pointer call for slot `i` with descriptor `i`'s layout: the
      slot is the descriptor's position in the list, not its payload tag. */
  lemma {:induction false} PointersSlots(h: Handle, ds: seq<Descriptor>, n: nat, elementSize: nat)
    requires n <= |ds|
    ensures var cs := Pointers(h, ds, n, elementSize);
            forall i :: 0 <= i < n ==>
              && cs[4 * i] == Arr(BindVertexArray(h)) && cs[4 * i + 1] == Arr(EnableVertexAttribArray(i))
              && cs[4 * i + 2] == Arr(VertexAttribPointer(i, ds[i].elementCount, ds[i].attribType, false,
                                                           ByteStride(ds[i].stride, elementSize), ds[i].offset * elementSize))
              && cs[4 * i + 3] == Arr(BindVertexArray(0))
    decreases n
  {
    if n > 0 {
      PointersSlots(h, ds, n - 1, elementSize);
      var front := Pointers(h, ds, n - 1, elementSize);
      var d := ds[n - 1];
      var last := PointerCalls(h, n - 1, d.elementCount, d.attribType, d.stride, d.offset, elementSize);
      var cs := Pointers(h, ds, n, elementSize);
      assert cs == front + last;
      forall i | 0 <= i < n
        ensures cs[4 * i] == Arr(BindVertexArray(h)) && cs[4 * i + 1] == Arr(EnableVertexAttribArray(i))
        ensures cs[4 * i + 2] == Arr(VertexAttribPointer(i, ds[i].elementCount, ds[i].attribType, false,
                                                          ByteStride(ds[i].stride, elementSize), ds[i].offset * elementSize))
        ensures cs[4 * i + 3] == Arr(BindVertexArray(0))
      {
        if i < n - 1 {
          assert cs[4 * i] == front[4 * i] && cs[4 * i + 1] == front[4 * i + 1];
          assert cs[4 * i + 2] == front[4 * i + 2] && cs[4 * i + 3] == front[4 * i + 3];
        } else {
          assert 4 * i == |front|;
          assert cs[4 * i + 2] == last[2];
        }
      }
    }
  }

  /** The pointer descriptor `d` gets over `buffer`. */
  function Layout(buffer: Handle, d: Descriptor, elementSize: nat): AttribPointer {
    AttribPointer(buffer, d.elementCount, d.attribType, false, ByteStride(d.stride, elementSize), d.offset * elementSize)
  }

  /** Slots `0..n-1` of array `h` are enabled and hold the layouts of the first `n`
      descriptors over `buffer`. */
  ghost predicate Slots(r: GLData, buffer: Handle, h: Handle, ds: seq<Descriptor>, n: nat, elementSize: nat)
    requires n <= |ds|
  {
    forall i :: 0 <= i < n ==>
      (h, i) in r.arr.enabled && (h, i) in r.arr.pointers && r.arr.pointers[(h, i)] == Layout(buffer, ds[i], elementSize)
  }

  lemma SlotsGrow(m: GLData, r: GLData, buffer: Handle, h: Handle, ds: seq<Descriptor>, n: nat, elementSize: nat)
    requires n < |ds| && Slots(m, buffer, h, ds, n, elementSize)
    requires r.arr.enabled == m.arr.enabled + {(h, n)}
    requires r.arr.pointers == m.arr.pointers[(h, n) := Layout(buffer, ds[n], elementSize)]
    ensures Slots(r, buffer, h, ds, n + 1, elementSize)
  {
    forall i | 0 <= i < n + 1
      ensures (h, i) in r.arr.enabled && (h, i) in r.arr.pointers && r.arr.pointers[(h, i)] == Layout(buffer, ds[i], elementSize)
    {
      if i < n {
        assert (h, i) != (h, n);
      }
    }
  }

  /** A buffered textured quad describes its texture coordinates as declared: the second round's
      pointer call reads 4 floats at byte offset 12 of each 20-byte vertex. */
  lemma TexturedQuadPointsFourFloats(h: Handle)
    ensures Pointers(h, TexturedQuadAttributesAsWritten(), 2, FloatSize)[6]
            == Arr(VertexAttribPointer(1, 4, FloatType, false, 20, 12))
  {
    PointersSlots(h, TexturedQuadAttributesAsWritten(), 2, FloatSize);
  }

  /** Round `n`, accepted, on a state that kept the buffers and filled slots `0..n-1`, fills
      slot `n` as well and leaves the array unbound. */
  lemma RoundEffect(s: GLData, m: GLData, h: Handle, ds: seq<Descriptor>, n: nat, elementSize: nat)
    requires h != 0 && n < |ds|
    requires m.driver == s.driver && m.buf == s.buf && m.live == s.live && Slots(m, s.buf.arrayBuffer, h, ds, n, elementSize)
    requires Accepts(m.driver, PointerCalls(h, n, ds[n].elementCount, ds[n].attribType, ds[n].stride, ds[n].offset, elementSize))
    ensures var r := Pointed(m, h, n, ds[n].elementCount, ds[n].attribType, ds[n].stride, ds[n].offset, elementSize);
            && r.driver == s.driver && r.buf == s.buf && r.live == s.live && r.arr.vertexArray == 0
            && Slots(r, s.buf.arrayBuffer, h, ds, n + 1, elementSize)
  {
    var d := ds[n];
    PointerEffect(m, h, n, d.elementCount, d.attribType, d.stride, d.offset, elementSize);
    SlotsGrow(m, Pointed(m, h, n, d.elementCount, d.attribType, d.stride, d.offset, elementSize), s.buf.arrayBuffer, h, ds, n, elementSize);
  }

  /** With every call accepted, after `n` rounds each slot `i < n` of the array is enabled and
      holds descriptor `i`'s layout over the buffer bound to ArrayBuffer, the array is unbound,
      and the buffers are untouched. */
  lemma {:induction false} PointersEffect(s: GLData, h: Handle, ds: seq<Descriptor>, n: nat, elementSize: nat)
    requires h != 0 && n <= |ds| && Accepts(s.driver, Pointers(h, ds, n, elementSize))
    ensures var r := PointedAll(s, h, ds, n, elementSize);
            && r.driver == s.driver && r.buf == s.buf && r.live == s.live
            && (n > 0 ==> r.arr.vertexArray == 0)
            && Slots(r, s.buf.arrayBuffer, h, ds, n, elementSize)
    decreases n
  {
    if n > 0 {
      var d := ds[n - 1];
      var front := Pointers(h, ds, n - 1, elementSize);
      var last := PointerCalls(h, n - 1, d.elementCount, d.attribType, d.stride, d.offset, elementSize);
      assert Pointers(h, ds, n, elementSize) == front + last;
      AcceptsParts(s.driver, front, last);
      PointersEffect(s, h, ds, n - 1, elementSize);
      RoundEffect(s, PointedAll(s, h, ds, n - 1, elementSize), h, ds, n - 1, elementSize);
    }
  }

  // ---------------------------------------------------------------- BufferedMesh

  /** The state after `New` created the element buffer of `source`'s indices on `s`. */
  function WithElements(s: GLData, source: MeshSource): GLData {
    Created(s, ElementArrayBuffer, UInts(source.Indices()))
  }

  /** The state after `New` then created the vertex buffer of `source`'s vertices. */
  function WithBuffers(s: GLData, source: MeshSource): GLData {
    Created(WithElements(s, source), ArrayBuffer, Floats(source.Vertices()))
  }

  /** When both uploads pass their checks, the two buffers take the next two names, both live,
      and the state stays well formed under the same driver. */
  lemma BuffersEffect(s: GLData, source: MeshSource)
    requires WellFormed(s)
    requires !Uploaded(s, ElementArrayBuffer, UInts(source.Indices())).error
    requires !Uploaded(WithElements(s, source), ArrayBuffer, Floats(source.Vertices())).error
    ensures var r := WithBuffers(s, source);
            && WellFormed(r) && r.driver == s.driver
            && WithElements(s, source).next == s.next + 1 && r.next == s.next + 2
            && r.live == s.live + {s.next, s.next + 1}
  {
    var s1 := WithElements(s, source);
    CreateEffect(s, ElementArrayBuffer, ArrayBuffer, UInts(source.Indices()));
    CreatedKeeps(s, ElementArrayBuffer, UInts(source.Indices()));
    CreateEffect(s1, ArrayBuffer, ElementArrayBuffer, Floats(source.Vertices()));
    CreatedKeeps(s1, ArrayBuffer, Floats(source.Vertices()));
  }

  /** The two uploads store the indices under the first new name and the vertices under the
      second, and change no other store. */
  lemma BuffersStores(s: GLData, source: MeshSource)
    requires WellFormed(s)
    requires !Uploaded(s, ElementArrayBuffer, UInts(source.Indices())).error
    requires !Uploaded(WithElements(s, source), ArrayBuffer, Floats(source.Vertices())).error
    ensures WithBuffers(s, source).buf.stores
            == s.buf.stores[s.next := BufferStore(ByteSize(UInts(source.Indices())), UInts(source.Indices()), StaticDraw)]
                           [s.next + 1 := BufferStore(ByteSize(Floats(source.Vertices())), Floats(source.Vertices()), StaticDraw)]
  {
    var s1 := WithElements(s, source);
    CreateEffect(s, ElementArrayBuffer, ArrayBuffer, UInts(source.Indices()));
    CreatedKeeps(s, ElementArrayBuffer, UInts(source.Indices()));
    CreateEffect(s1, ArrayBuffer, ElementArrayBuffer, Floats(source.Vertices()));
  }

  /** When both uploads and the vertex array's calls go through, `New` leaves three new live
      names and no other: the element buffer holding the indices, the vertex buffer holding the
      vertices, and a vertex array recording that element buffer; no other buffer's store
      changes. */
  lemma BuildEffect(s: GLData, source: MeshSource, vertex: BufferObject, element: BufferObject)
    requires WellFormed(s)
    requires !Uploaded(s, ElementArrayBuffer, UInts(source.Indices())).error
    requires !Uploaded(WithElements(s, source), ArrayBuffer, Floats(source.Vertices())).error
    requires element.target == ElementArrayBuffer && element.handle == s.next
    requires vertex.target == ArrayBuffer && vertex.handle == WithElements(s, source).next
    requires Accepts(s.driver, ConstructCalls(WithBuffers(s, source).next, vertex, element))
    ensures var r := Constructed(WithBuffers(s, source), vertex, element);
            var e, v, a := s.next, WithElements(s, source).next, WithBuffers(s, source).next;
            && e !in s.live && v !in s.live && a !in s.live && e != v && v != a && e != a
            && r.live == s.live + {e, v, a}
            && r.buf.stores == s.buf.stores[e := BufferStore(ByteSize(UInts(source.Indices())), UInts(source.Indices()), StaticDraw)]
                                           [v := BufferStore(ByteSize(Floats(source.Vertices())), Floats(source.Vertices()), StaticDraw)]
            && ElementOf(r, a) == e
  {
    BuffersEffect(s, source);
    BuffersStores(s, source);
    var s2 := WithBuffers(s, source);
    ConstructEffect(s2, vertex, element);
  }

  class BufferedMesh {
    const gl: GLState
    const elementBuffer: BufferObject
    const vertexBuffer: BufferObject
    const vertexArray: VertexArrayObject
    const source: MeshSource

    ghost predicate Valid()
      reads this, gl, source.Context()
      reads if source.TexturedQuadSource? then {source.quad} else if source.DataSource? then {source.data} else {source.cube}
    {
      && gl.Valid() && source.Context() == gl && source.Valid()
      && elementBuffer.gl == gl && vertexBuffer.gl == gl && vertexArray.gl == gl
      && vertexArray.handle != 0 && vertexArray.vertexSize == FloatSize
    }

    constructor Wrap(gl: GLState, source: MeshSource, elementBuffer: BufferObject, vertexBuffer: BufferObject, vertexArray: VertexArrayObject)
      ensures this.gl == gl && this.source == source
      ensures this.elementBuffer == elementBuffer && this.vertexBuffer == vertexBuffer && this.vertexArray == vertexArray
    {
      this.gl := gl;
      this.source := source;
      this.elementBuffer := elementBuffer;
      this.vertexBuffer := vertexBuffer;
      this.vertexArray := vertexArray;
    }

    /** `new BufferedMesh(gl, sourceMesh)`: an element buffer from the source's indices (even an
        empty list), then a vertex buffer from its vertices, then a vertex array over both; a
        failed upload throws and stops the construction. */
    static method New(source: MeshSource) returns (r: Result<BufferedMesh>)
      requires source.Valid()
      modifies source.Context()
      ensures source.Valid() && source.Context().Valid()
      ensures r.Failure? ==> r.error == GLCallFailed
      ensures var gl, s0, indices, vertices := source.Context(), old(source.Context().state), UInts(source.Indices()), Floats(source.Vertices());
              r.Failure? ==>
                if Uploaded(s0, ElementArrayBuffer, indices).error then
                  && gl.state == Uploaded(s0, ElementArrayBuffer, indices).(error := false)
                  && gl.trace == old(gl.trace) + CreateCalls(ElementArrayBuffer, s0.next, indices, true)
                else
                  && gl.state == Uploaded(WithElements(s0, source), ArrayBuffer, vertices).(error := false)
                  && gl.trace == old(gl.trace) + CreateCalls(ElementArrayBuffer, s0.next, indices, false)
                                 + CreateCalls(ArrayBuffer, WithElements(s0, source).next, vertices, true)
      ensures var s0 := old(source.Context().state);
              r.Success? <==> && !Uploaded(s0, ElementArrayBuffer, UInts(source.Indices())).error
                              && !Uploaded(WithElements(s0, source), ArrayBuffer, Floats(source.Vertices())).error
      ensures r.Success? ==>
                var m, s0 := r.value, old(source.Context().state);
                && m.vertexBuffer.handle == WithElements(s0, source).next && m.vertexArray.handle == WithBuffers(s0, source).next
                && m.gl.state == Constructed(WithBuffers(s0, source), m.vertexBuffer, m.elementBuffer)
      ensures r.Success? ==>
                var m := r.value;
                && fresh(m) && m.Valid() && m.gl == source.Context() && m.source == source
                && m.elementBuffer.target == ElementArrayBuffer && m.elementBuffer.handle == old(source.Context().state).next
                && m.vertexBuffer.target == ArrayBuffer
                && m.gl.trace == old(source.Context().trace)
                                 + CreateCalls(ElementArrayBuffer, m.elementBuffer.handle, UInts(source.Indices()), false)
                                 + CreateCalls(ArrayBuffer, m.vertexBuffer.handle, Floats(source.Vertices()), false)
                                 + ConstructCalls(m.vertexArray.handle, m.vertexBuffer, m.elementBuffer)
    {
      var gl := source.Context();
      var elements := BufferObject.New(gl, ElementArrayBuffer, UInts(source.Indices()));
      if elements.Failure? {
        return Failure(elements.error);
      }
      var vertices := BufferObject.New(gl, ArrayBuffer, Floats(source.Vertices()));
      if vertices.Failure? {
        return Failure(vertices.error);
      }
      var vao := new VertexArrayObject(gl, vertices.value, elements.value, FloatSize);
      var mesh := new BufferedMesh.Wrap(gl, source, elements.value, vertices.value, vao);
      return Success(mesh);
    }

    /** `ActivateVertexAttributes()`: one pointer call per descriptor, in list order, descriptor
        `i` going to slot `i`. */
    method ActivateVertexAttributes()
      requires Valid()
      modifies gl
      ensures Valid()
      ensures gl.trace == old(gl.trace) + Pointers(vertexArray.handle, source.Attributes(), |source.Attributes()|, FloatSize)
      ensures gl.state == PointedAll(old(gl.state), vertexArray.handle, source.Attributes(), |source.Attributes()|, FloatSize)
    {
      var attributes := source.Attributes();
      var i := 0;
      while i < |attributes|
        invariant 0 <= i <= |attributes|
        invariant gl.Valid()
        invariant gl.trace == old(gl.trace) + Pointers(vertexArray.handle, attributes, i, FloatSize)
        invariant gl.state == PointedAll(old(gl.state), vertexArray.handle, attributes, i, FloatSize)
      {
        var descriptor := attributes[i];
        vertexArray.VertexAttribPointer(i, descriptor.elementCount, descriptor.attribType, descriptor.stride, descriptor.offset);
        Round(old(gl.trace), old(gl.state), vertexArray.handle, attributes, i, FloatSize, gl.trace, gl.state);
        i := i + 1;
      }
    }

    /** The steps of `Draw()`: the source's `PrepareForDrawing`, then as many elements as the
        source has indices. */
    function DrawActions(): seq<Action>
      reads this, if source.TexturedQuadSource? then {source.quad} else {}
    {
      DrawActionsWith(source.Transformation())
    }

    /** The same steps, with the transformation `t` for the source's preparation. */
    function DrawActionsWith(t: Option<Mat4>): seq<Action> {
      source.PrepareWith(t) + [Issue(DrawElements(|source.Indices()|))]
    }

    /** `Draw()`: a failure of the preparation propagates and nothing is drawn. */
    method Draw() returns (o: Outcome)
      requires Valid()
      modifies gl
      ensures Valid()
      ensures At(gl, Start(old(gl.state)), old(gl.trace), DrawActions()) && o == Reported(Run(Start(old(gl.state)), DrawActions()).result)
    {
      ghost var d, t0 := Start(gl.state), gl.trace;
      assert t0 + d.calls == t0;
      var draw := DrawElements(|source.Indices()|);
      if source.TexturedQuadSource? {
        o := source.quad.PrepareForDrawing();
        if o.Fail? {
          StoppedAt(d, source.Prepare(), [Issue(draw)]);
          return;
        }
      } else {
        o := Pass;
      }
      StepDraw(gl, draw, d, t0, source.Prepare());
      o := Pass;
    }

    /** `Dispose()`: the element buffer, the vertex buffer, then the vertex array, and nothing
        else. */
    method Dispose()
      requires Valid()
      modifies gl
      ensures Valid()
      ensures gl.trace == old(gl.trace) + [Buf(DeleteBuffer(elementBuffer.handle)), Buf(DeleteBuffer(vertexBuffer.handle)),
                                          Arr(DeleteVertexArray(vertexArray.handle))]
      ensures gl.state == ArrayStep(BufferStep(BufferStep(old(gl.state), DeleteBuffer(elementBuffer.handle)), DeleteBuffer(vertexBuffer.handle)),
                                    DeleteVertexArray(vertexArray.handle))
    {
      elementBuffer.Dispose();
      vertexBuffer.Dispose();
      vertexArray.Dispose();
    }
  }

  /** A buffered mesh over a source without the `PrepareForDrawing` hook prepares nothing and
      only draws its indices: 36 for the lit cube, and none for a `DataMesh`, which has no
      indices, however many vertices it holds. */
  lemma UnhookedSourceDraws(s: GLData, source: MeshSource)
    requires !source.TexturedQuadSource?
    ensures var r := Run(Start(s), source.Prepare() + [Issue(DrawElements(|source.Indices()|))]);
            && r.result.Success? && r.calls == [DrawElements(|source.Indices()|)]
            && (source.DataSource? ==> r.calls == [DrawElements(0)])
            && (source.LitCubeSource? ==> r.calls == [DrawElements(36)])
  {
    var a := Issue(DrawElements(|source.Indices()|));
    assert source.Prepare() == [];
    assert source.Prepare() + [a] == [a];
    Extended(Start(s), [], a);
    assert [] + [a] == [a];
  }
}
