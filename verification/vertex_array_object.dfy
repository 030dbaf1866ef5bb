/** `VertexArrayObject<TV, TI>` (GLAbstractions/VertexArrayObject.cs): a vertex array that
    captures a vertex buffer and an optional element buffer, and receives attribute pointers. */
module VertexArrays {
  import opened Values
  import opened GL
  import opened BufferObjects

  /** The calls construction issues for array handle `h`: generate, bind the array, bind the
      vertex buffer and (when there is one) the element buffer, unbind the array. */
  function ConstructCalls(h: Handle, vertex: BufferObject, element: BufferObject?): (cs: seq<Call>)
    ensures |cs| == if element == null then 4 else 5
    ensures cs[1] == Arr(BindVertexArray(h)) && cs[|cs| - 1] == Arr(BindVertexArray(0))
  {
    if element == null
    then [Arr(GenVertexArray), Arr(BindVertexArray(h)), Buf(BindBuffer(vertex.target, vertex.handle)), Arr(BindVertexArray(0))]
    else [Arr(GenVertexArray), Arr(BindVertexArray(h)), Buf(BindBuffer(vertex.target, vertex.handle)),
          Buf(BindBuffer(element.target, element.handle)), Arr(BindVertexArray(0))]
  }

  /** The state construction leaves behind. */
  function Constructed(s: GLData, vertex: BufferObject, element: BufferObject?): GLData {
    var bound := BufferStep(ArrayStep(Allocate(s), BindVertexArray(s.next)), BindBuffer(vertex.target, vertex.handle));
    var captured := if element == null then bound else BufferStep(bound, BindBuffer(element.target, element.handle));
    ArrayStep(captured, BindVertexArray(0))
  }

  /** When the driver accepts every call, construction allocates one fresh array that records
      the element buffer, leaves the ArrayBuffer target holding the buffer bound last on it, and
      unbinds the array; no other array's element binding and no buffer store changes. */
  lemma ConstructEffect(s: GLData, vertex: BufferObject, element: BufferObject?)
    requires WellFormed(s) && Accepts(s.driver, ConstructCalls(s.next, vertex, element))
    ensures var r := Constructed(s, vertex, element);
            && s.next !in s.live && r.live == s.live + {s.next}
            && r.arr.vertexArray == 0
            && r.buf.arrayBuffer == (if element != null && element.target == ArrayBuffer then element.handle
                                     else if vertex.target == ArrayBuffer then vertex.handle
                                     else s.buf.arrayBuffer)
            && (element != null && element.target == ElementArrayBuffer ==> ElementOf(r, s.next) == element.handle)
            && (element == null && vertex.target == ElementArrayBuffer ==> ElementOf(r, s.next) == vertex.handle)
            && (forall v :: v != s.next ==> ElementOf(r, v) == ElementOf(s, v))
            && r.buf.stores == s.buf.stores
  {
    var cs := ConstructCalls(s.next, vertex, element);
    assert cs[0] !in s.driver.rejects && cs[1] !in s.driver.rejects && cs[2] !in s.driver.rejects;
    var h := s.next;
    var generated := Allocate(s);
    var entered := ArrayStep(generated, BindVertexArray(h));
    assert entered == generated.(arr := generated.arr.(vertexArray := h));
    var bound := BufferStep(entered, BindBuffer(vertex.target, vertex.handle));
    BindInto(entered, vertex.target, vertex.handle);
    var captured := bound;
    if element != null {
      assert cs[3] !in s.driver.rejects;
      captured := BufferStep(bound, BindBuffer(element.target, element.handle));
      BindInto(bound, element.target, element.handle);
    }
    assert cs[|cs| - 1] !in s.driver.rejects;
    assert Constructed(s, vertex, element) == captured.(arr := captured.arr.(vertexArray := 0));
  }

  /** An accepted glBindBuffer changes only its target's binding, recorded in the bound vertex
      array for ElementArrayBuffer. */
  lemma BindInto(s: GLData, target: BufferTarget, h: Handle)
    requires Buf(BindBuffer(target, h)) !in s.driver.rejects
    ensures BufferStep(s, BindBuffer(target, h)) == match target
      case ArrayBuffer => s.(buf := s.buf.(arrayBuffer := h))
      case ElementArrayBuffer => s.(buf := s.buf.(elementBuffers := s.buf.elementBuffers[s.arr.vertexArray := h]))
  {
  }

  /** Byte stride as the source computes it: a product of two 32-bit unsigned values, which wraps. */
  function ByteStride(stride: nat, elementSize: nat): (n: nat)
    ensures n < 0x1_0000_0000
    ensures stride * elementSize < 0x1_0000_0000 ==> n == stride * elementSize
  {
    (stride * elementSize) % 0x1_0000_0000
  }

  /** The calls `VertexAttribPointer` issues: bind, enable the index, set its pointer (never
      normalized, stride and offset in bytes), unbind. */
  function PointerCalls(h: Handle, index: nat, size: int, attribType: AttribType, stride: nat, offset: int, elementSize: nat): (cs: seq<Call>)
    ensures |cs| == 4 && cs[0] == Arr(BindVertexArray(h)) && cs[3] == Arr(BindVertexArray(0))
    ensures cs[1] == Arr(EnableVertexAttribArray(index))
    ensures cs[2].Arr? && cs[2].a.VertexAttribPointer? && cs[2].a.index == index && !cs[2].a.normalized
    ensures cs[2].a.byteOffset == offset * elementSize
    ensures stride * elementSize < 0x1_0000_0000 ==> cs[2].a.byteStride == stride * elementSize
  {
    [Arr(BindVertexArray(h)), Arr(EnableVertexAttribArray(index)),
     Arr(VertexAttribPointer(index, size, attribType, false, ByteStride(stride, elementSize), offset * elementSize)),
     Arr(BindVertexArray(0))]
  }

  /** The state `VertexAttribPointer` leaves behind. */
  function Pointed(s: GLData, h: Handle, index: nat, size: int, attribType: AttribType, stride: nat, offset: int, elementSize: nat): GLData {
    var pointer := VertexAttribPointer(index, size, attribType, false, ByteStride(stride, elementSize), offset * elementSize);
    ArrayStep(ArrayStep(ArrayStep(ArrayStep(s, BindVertexArray(h)), EnableVertexAttribArray(index)), pointer), BindVertexArray(0))
  }

  /** When the driver accepts the calls, the index is enabled in this array, its pointer reads
      the buffer bound to ArrayBuffer with the byte layout given, and the array is unbound again;
      nothing else about the vertex arrays changes. */
  lemma PointerEffect(s: GLData, h: Handle, index: nat, size: int, attribType: AttribType, stride: nat, offset: int, elementSize: nat)
    requires h != 0
    requires Accepts(s.driver, PointerCalls(h, index, size, attribType, stride, offset, elementSize))
    ensures var r := Pointed(s, h, index, size, attribType, stride, offset, elementSize);
            && r.arr.vertexArray == 0
            && r.arr.enabled == s.arr.enabled + {(h, index)}
            && r.arr.pointers == s.arr.pointers[(h, index) := AttribPointer(s.buf.arrayBuffer, size, attribType, false, ByteStride(stride, elementSize), offset * elementSize)]
            && r.buf == s.buf && r.live == s.live && !r.error == !s.error && r.driver == s.driver
  {
    var cs := PointerCalls(h, index, size, attribType, stride, offset, elementSize);
    assert cs[0] !in s.driver.rejects && cs[1] !in s.driver.rejects && cs[2] !in s.driver.rejects && cs[3] !in s.driver.rejects;
  }

  class VertexArrayObject {
    const gl: GLState
    const handle: Handle
    /** `sizeof(TVertexType)`. */
    const vertexSize: nat

    /** `new VertexArrayObject<TV, TI>(gl, vertexBuffer, elementBuffer)`. */
    constructor (gl: GLState, vertexBuffer: BufferObject, elementBuffer: BufferObject?, vertexSize: nat)
      requires gl.Valid()
      modifies gl
      ensures gl.Valid() && this.gl == gl && this.vertexSize == vertexSize
      ensures handle == old(gl.state).next && handle != 0
      ensures gl.trace == old(gl.trace) + ConstructCalls(handle, vertexBuffer, elementBuffer)
      ensures gl.state == Constructed(old(gl.state), vertexBuffer, elementBuffer)
    {
      ghost var t0 := gl.trace;
      var h := gl.Gen(Arr(GenVertexArray));
      this.gl := gl;
      handle := h;
      this.vertexSize := vertexSize;
      new;
      gl.ApplyArray(BindVertexArray(h));
      gl.ApplyBuffer(BindBuffer(vertexBuffer.target, vertexBuffer.handle));
      if elementBuffer != null {
        gl.ApplyBuffer(BindBuffer(elementBuffer.target, elementBuffer.handle));
      }
      gl.ApplyArray(BindVertexArray(0));
      if elementBuffer == null {
        Appended4(t0, Arr(GenVertexArray), Arr(BindVertexArray(h)), Buf(BindBuffer(vertexBuffer.target, vertexBuffer.handle)), Arr(BindVertexArray(0)));
      } else {
        Appended5(t0, Arr(GenVertexArray), Arr(BindVertexArray(h)), Buf(BindBuffer(vertexBuffer.target, vertexBuffer.handle)),
                  Buf(BindBuffer(elementBuffer.target, elementBuffer.handle)), Arr(BindVertexArray(0)));
      }
    }

    method Bind()
      requires gl.Valid()
      modifies gl
      ensures gl.Valid()
      ensures gl.trace == old(gl.trace) + [Arr(BindVertexArray(handle))] && gl.state == ArrayStep(old(gl.state), BindVertexArray(handle))
    {
      gl.ApplyArray(BindVertexArray(handle));
    }

    method Unbind()
      requires gl.Valid()
      modifies gl
      ensures gl.Valid()
      ensures gl.trace == old(gl.trace) + [Arr(BindVertexArray(0))] && gl.state == ArrayStep(old(gl.state), BindVertexArray(0))
    {
      gl.ApplyArray(BindVertexArray(0));
    }

    /** Enables attribute `index` and points it at the bound vertex buffer, with the stride and
        offset (counted in vertex elements) scaled to bytes. */
    method VertexAttribPointer(index: nat, size: int, attribType: AttribType, stride: nat, offset: int)
      requires gl.Valid()
      modifies gl
      ensures gl.Valid()
      ensures gl.trace == old(gl.trace) + PointerCalls(handle, index, size, attribType, stride, offset, vertexSize)
      ensures gl.state == Pointed(old(gl.state), handle, index, size, attribType, stride, offset, vertexSize)
    {
      ghost var t0 := gl.trace;
      var pointer := ArrayCall.VertexAttribPointer(index, size, attribType, false, ByteStride(stride, vertexSize), offset * vertexSize);
      Bind();
      gl.ApplyArray(EnableVertexAttribArray(index));
      gl.ApplyArray(pointer);
      Unbind();
      Appended4(t0, Arr(BindVertexArray(handle)), Arr(EnableVertexAttribArray(index)), Arr(pointer), Arr(BindVertexArray(0)));
    }

    /** Deletes only the array; the buffers it captured stay alive. */
    method Dispose()
      requires gl.Valid()
      modifies gl
      ensures gl.Valid()
      ensures gl.trace == old(gl.trace) + [Arr(DeleteVertexArray(handle))] && gl.state == ArrayStep(old(gl.state), DeleteVertexArray(handle))
      ensures Arr(DeleteVertexArray(handle)) !in old(gl.state).driver.rejects ==> gl.state.live == old(gl.state).live - {handle}
    {
      gl.ApplyArray(DeleteVertexArray(handle));
    }
  }
}
