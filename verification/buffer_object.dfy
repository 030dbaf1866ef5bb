/** `BufferObject<T>` (GLAbstractions/BufferObject.cs): a GL buffer created, filled once with
    STATIC_DRAW data, and bound or unbound on its own target. */
module BufferObjects {
  import opened Values
  import opened GL

  /** `sizeof(T)` for the element types the engine stores in buffers. */
  function ElementSize(data: Payload): nat {
    match data
    case Floats(_) => FloatSize
    case UInts(_) => UIntSize
  }

  /** The byte size handed to glBufferData: element count times element size, computed as a
      32-bit `int` and cast to `nuint`; four bytes per element below 2^31 bytes. */
  function ByteSize(data: Payload): (n: nat)
    ensures n == NativeByteCount(data.Count(), 4)
    ensures 4 * data.Count() < 0x8000_0000 ==> n == 4 * data.Count()
  {
    NativeByteCount(data.Count(), ElementSize(data))
  }

  /** The calls construction issues for handle `h`: generate, bind, upload, check; the unbind is
      only reached when the check passes. */
  function CreateCalls(target: BufferTarget, h: Handle, data: Payload, failed: bool): (cs: seq<Call>)
    ensures |cs| == if failed then 4 else 5
  {
    var upload := Buf(BufferData(target, ByteSize(data), data, StaticDraw));
    if failed then [Buf(GenBuffer), Buf(BindBuffer(target, h)), upload, GetError]
    else [Buf(GenBuffer), Buf(BindBuffer(target, h)), upload, GetError, Buf(BindBuffer(target, 0))]
  }

  /** The state right after the upload, before the error check. */
  function Uploaded(s: GLData, target: BufferTarget, data: Payload): GLData {
    BufferStep(BufferStep(Allocate(s), BindBuffer(target, s.next)), BufferData(target, ByteSize(data), data, StaticDraw))
  }

  /** The state after a construction whose error check passed: checked, then unbound. */
  function Created(s: GLData, target: BufferTarget, data: Payload): GLData {
    BufferStep(Uploaded(s, target, data).(error := false), BindBuffer(target, 0))
  }

  /** Creating a buffer keeps the state well formed under the same driver and uses up exactly
      one name. */
  lemma CreatedKeeps(s: GLData, target: BufferTarget, data: Payload)
    requires WellFormed(s)
    ensures Keeps(s, Created(s, target, data)) && Created(s, target, data).next == s.next + 1
  {
    var a := Allocate(s);
    var bound := BufferStep(a, BindBuffer(target, s.next));
    BufferKeeps(a, BindBuffer(target, s.next));
    BufferKeeps(bound, BufferData(target, ByteSize(data), data, StaticDraw));
    BufferKeeps(Uploaded(s, target, data).(error := false), BindBuffer(target, 0));
  }

  /** When the error check passes, the new handle is live, holds exactly the uploaded data, and
      (unless the driver refuses the unbind) the target is left unbound; the other target keeps
      its binding. */
  lemma CreateEffect(s: GLData, target: BufferTarget, other: BufferTarget, data: Payload)
    requires WellFormed(s) && other != target
    requires !Uploaded(s, target, data).error
    ensures var r := Created(s, target, data);
            && s.next !in s.live && r.live == s.live + {s.next}
            && r.buf.stores == s.buf.stores[s.next := BufferStore(ByteSize(data), data, StaticDraw)]
            && Bound(r, other) == Bound(s, other)
            && (Buf(BindBuffer(target, 0)) !in s.driver.rejects ==> Bound(r, target) == 0 && !r.error)
  {
  }

  /** Binding a buffer sets only its own target. */
  lemma BindEffect(s: GLData, target: BufferTarget, other: BufferTarget, h: Handle)
    requires other != target
    ensures var r := BufferStep(s, BindBuffer(target, h));
            && Bound(r, other) == Bound(s, other) && r.live == s.live && r.buf.stores == s.buf.stores
            && r.arr == s.arr && r.prog == s.prog && r.tex == s.tex
            && (Buf(BindBuffer(target, h)) !in s.driver.rejects ==> Bound(r, target) == h)
  {
  }

  class BufferObject {
    const gl: GLState
    const handle: Handle
    const target: BufferTarget
    const elementSize: nat

    constructor Wrap(gl: GLState, handle: Handle, target: BufferTarget, elementSize: nat)
      ensures this.gl == gl && this.handle == handle && this.target == target && this.elementSize == elementSize
    {
      this.gl := gl;
      this.handle := handle;
      this.target := target;
      this.elementSize := elementSize;
    }

    /** `new BufferObject<T>(gl, target, data)`: generate a handle, bind it, upload the data,
        fail on a GL error, and unbind. */
    static method New(gl: GLState, target: BufferTarget, data: Payload) returns (r: Result<BufferObject>)
      requires gl.Valid()
      modifies gl
      ensures gl.Valid()
      ensures var failed := Uploaded(old(gl.state), target, data).error;
              && gl.trace == old(gl.trace) + CreateCalls(target, old(gl.state).next, data, failed)
              && (r.Failure? <==> failed)
              && (r.Failure? ==> r.error == GLCallFailed && gl.state == Uploaded(old(gl.state), target, data).(error := false))
      ensures r.Success? ==> && fresh(r.value) && r.value.gl == gl && r.value.target == target
                             && r.value.handle == old(gl.state).next && r.value.elementSize == ElementSize(data)
                             && gl.state == Created(old(gl.state), target, data)
    {
      ghost var t0 := gl.trace;
      var h := gl.Gen(Buf(GenBuffer));
      var upload := Buf(BufferData(target, ByteSize(data), data, StaticDraw));
      gl.ApplyBuffer(BindBuffer(target, h));
      gl.ApplyBuffer(BufferData(target, ByteSize(data), data, StaticDraw));
      var o := gl.EnsureCallSucceeded();
      if o.Fail? {
        r := Failure(o.error);
        Appended4(t0, Buf(GenBuffer), Buf(BindBuffer(target, h)), upload, GetError);
        return;
      }
      gl.ApplyBuffer(BindBuffer(target, 0));
      var b := new BufferObject.Wrap(gl, h, target, ElementSize(data));
      r := Success(b);
      Appended5(t0, Buf(GenBuffer), Buf(BindBuffer(target, h)), upload, GetError, Buf(BindBuffer(target, 0)));
    }

    method Bind()
      requires gl.Valid()
      modifies gl
      ensures gl.Valid()
      ensures gl.trace == old(gl.trace) + [Buf(BindBuffer(target, handle))] && gl.state == BufferStep(old(gl.state), BindBuffer(target, handle))
    {
      gl.ApplyBuffer(BindBuffer(target, handle));
    }

    method Unbind()
      requires gl.Valid()
      modifies gl
      ensures gl.Valid()
      ensures gl.trace == old(gl.trace) + [Buf(BindBuffer(target, 0))] && gl.state == BufferStep(old(gl.state), BindBuffer(target, 0))
    {
      gl.ApplyBuffer(BindBuffer(target, 0));
    }

    /** Deletes exactly this buffer's handle. */
    method Dispose()
      requires gl.Valid()
      modifies gl
      ensures gl.Valid()
      ensures gl.trace == old(gl.trace) + [Buf(DeleteBuffer(handle))] && gl.state == BufferStep(old(gl.state), DeleteBuffer(handle))
      ensures Buf(DeleteBuffer(handle)) !in old(gl.state).driver.rejects ==> gl.state.live == old(gl.state).live - {handle}
    {
      gl.ApplyBuffer(DeleteBuffer(handle));
    }
  }
}
