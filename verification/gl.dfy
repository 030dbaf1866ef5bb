/** An abstract OpenGL 4.6 core-profile context, as the engine drives it through Silk.NET.

    The context is a pure state machine: `Step` applies one call to a `GLData` value.
    What the driver itself decides (which calls it rejects, what a compiler or linker says,
    where a uniform lives, how long a label may be) is fixed up front in a `Driver` value.
    `GLState` is the mutable context object the engine holds: every method issues one call,
    and its ghost `trace` records every call ever issued. */
module GL {
  import opened Values

  datatype BufferTarget = ArrayBuffer | ElementArrayBuffer

  datatype Usage = StaticDraw

  /** The contents handed to glBufferData: the engine uploads float vertex data and uint indices. */
  datatype Payload = Floats(floats: seq<real>) | UInts(uints: seq<nat>)
  {
    function Count(): nat {
      match this
      case Floats(f) => |f|
      case UInts(u) => |u|
    }
  }

  /** `sizeof(float)` and `sizeof(uint)` in C#. */
  const FloatSize: nat := 4
  const UIntSize: nat := 4

  /** `(nuint)(count * size)` as C# computes it by default (unchecked): the product is a 32-bit
      signed `int`, which wraps, and the cast to the 64-bit `nuint` sign-extends a negative one. */
  function NativeByteCount(count: nat, size: nat): (n: nat)
    ensures n < 0x1_0000_0000_0000_0000
    ensures n % 0x1_0000_0000 == (count * size) % 0x1_0000_0000
    ensures count * size < 0x8000_0000 ==> n == count * size
  {
    var w := (count * size) % 0x1_0000_0000;
    if w < 0x8000_0000 then w else w + 0xFFFF_FFFF_0000_0000
  }

  /** Past 2^29 four-byte elements the size is no longer four bytes per element: 2^29 elements
      give a sign-extended negative size, 2^30 elements give zero. */
  lemma ByteCountWraps()
    ensures NativeByteCount(0x2000_0000, 4) == 0xFFFF_FFFF_8000_0000
    ensures NativeByteCount(0x4000_0000, 4) == 0
    ensures NativeByteCount(0x1FFF_FFFF, 4) == 4 * 0x1FFF_FFFF
  {
  }

  datatype AttribType = FloatType

  datatype TexFormat = Rgba8 | Rgba

  datatype TexParam = WrapS | WrapT | MinFilter | MagFilter | BaseLevel | MaxLevel

  /** The GLenum values the engine passes as integer texture parameters. */
  const ClampToEdge: int := 0x812F
  const Linear: int := 0x2601
  const LinearMipmapLinear: int := 0x2703

  datatype ObjectKind = BufferObjectKind | TextureObjectKind | ProgramObjectKind | ShaderObjectKind | VertexArrayKind

  datatype BufferCall =
    | GenBuffer
    | BindBuffer(target: BufferTarget, buffer: Handle)
    | BufferData(target: BufferTarget, byteSize: int, data: Payload, usage: Usage)
    | DeleteBuffer(buffer: Handle)

  datatype ArrayCall =
    | GenVertexArray
    | BindVertexArray(vao: Handle)
    | DeleteVertexArray(vao: Handle)
    | EnableVertexAttribArray(index: nat)
    | VertexAttribPointer(index: nat, size: int, attribType: AttribType, normalized: bool, byteStride: int, byteOffset: int)

  /** Texture calls; all address the TEXTURE_2D target, and texture units are numbered (unit 0
      is GL_TEXTURE0). */
  datatype TextureCall =
    | GenTexture
    | ActiveTexture(unit: nat)
    | BindTexture(texture: Handle)
    | TexImage2D(level: int, format: TexFormat, width: nat, height: nat, pixels: Option<seq<Byte>>)
    | TexSubImage2D(level: int, xOffset: int, yOffset: int, subWidth: int, subHeight: int, rows: seq<seq<Rgba32>>)
    | TexParameter(param: TexParam, value: int)
    | GenerateMipmap
    | DeleteTexture(texture: Handle)

  datatype ShaderCall =
    | CreateShader(stage: ShaderStage)
    | ShaderSource(shader: Handle, source: string)
    | CompileShader(shader: Handle)
    | GetShaderInfoLog(shader: Handle)
    | DeleteShader(shader: Handle)

  datatype ProgramCall =
    | CreateProgram
    | AttachShader(program: Handle, shader: Handle)
    | DetachShader(program: Handle, shader: Handle)
    | LinkProgram(program: Handle)
    | GetLinkStatus(program: Handle)
    | GetProgramInfoLog(program: Handle)
    | UseProgram(program: Handle)
    | DeleteProgram(program: Handle)
    | GetUniformLocation(program: Handle, name: string)
    | Uniform(location: int, uniformValue: UniformValue)

  /** One OpenGL call, with the arguments the engine passes, grouped by the kind of object it
      addresses. */
  datatype Call =
    | Buf(b: BufferCall)
    | Arr(a: ArrayCall)
    | Tex(t: TextureCall)
    | Sh(sh: ShaderCall)
    | Prog(p: ProgramCall)
    | DrawElements(count: nat)
    | DrawArrays(first: int, vertexCount: int)
    | GetMaxLabelLength
    | ObjectLabel(kind: ObjectKind, labelled: Handle, length: nat, text: string)
    | GetError

  /** What the driver decides on its own. `rejects` are commands it refuses with an error;
      `compileLogs` maps a shader source to its (non-empty) compiler log; `linkLogs` maps the
      set of sources of a program to its link log when linking fails; `uniformLocations` maps
      the sources of a linked program and a uniform name to the uniform's location. */
  datatype Driver = Driver(
    rejects: set<Call>,
    compileLogs: map<string, string>,
    linkLogs: map<set<string>, string>,
    uniformLocations: map<(set<string>, string), int>,
    maxLabelLength: int)

  datatype BufferStore = BufferStore(bytes: int, data: Payload, usage: Usage)

  datatype AttribPointer = AttribPointer(buffer: Handle, size: int, attribType: AttribType, normalized: bool, byteStride: int, byteOffset: int)

  /** One glTexSubImage2D rectangle: `rows[j][i]` goes to texel (x + i, y + j). */
  datatype SubImage = SubImage(x: int, y: int, w: int, h: int, rows: seq<seq<Rgba32>>)

  /** Level 0 of a 2-D texture: the storage glTexImage2D defined (with its initial bytes, if any)
      and the sub-image rectangles written into it since, oldest first. `Texel` reads it. */
  datatype TexImage = TexImage(format: TexFormat, width: nat, height: nat, pixels: Option<seq<Byte>>, writes: seq<SubImage>)

  /** Buffer bindings and contents. The ELEMENT_ARRAY_BUFFER binding is vertex-array state
      (section 10.3.1 of the OpenGL 4.6 core profile specification), so it is kept per vertex
      array, the default vertex array being 0. */
  datatype BufferState = BufferState(arrayBuffer: Handle, elementBuffers: map<Handle, Handle>, stores: map<Handle, BufferStore>)

  /** The bound vertex array, and per (vertex array, attribute index) its enable flag and pointer. */
  datatype ArrayState = ArrayState(vertexArray: Handle, enabled: set<(Handle, nat)>, pointers: map<(Handle, nat), AttribPointer>)

  /** The active unit, the TEXTURE_2D binding of each unit, and per texture its level-0 image,
      its integer parameters and whether mipmaps were generated. */
  datatype TextureState = TextureState(activeUnit: nat, units: map<nat, Handle>, images: map<Handle, TexImage>, params: map<(Handle, TexParam), int>, mipmapped: set<Handle>)

  datatype ShaderState = ShaderState(sources: map<Handle, string>, compiled: set<Handle>)

  /** The current program, the shaders attached to each program, the sources each program was
      last linked from, and the uniform values per (program, location). */
  datatype ProgramState = ProgramState(current: Handle, attached: map<Handle, set<Handle>>, linkedWith: map<Handle, set<string>>, uniforms: map<(Handle, int), UniformValue>)

  datatype GLData = GLData(
    buf: BufferState,
    arr: ArrayState,
    tex: TextureState,
    sh: ShaderState,
    prog: ProgramState,
    live: set<Handle>,
    next: Handle,
    error: bool,
    labels: map<Handle, string>,
    driver: Driver)

  /** What a sequence of GL work leaves behind: the state, the calls it issued, its result. */
  datatype Issued<+T> = Issued(state: GLData, calls: seq<Call>, result: Result<T>)

  /** A fresh context: nothing bound, nothing allocated, no error. */
  function Fresh(driver: Driver): (s: GLData)
    ensures WellFormed(s) && s.live == {} && !s.error
  {
    GLData(BufferState(0, map[], map[]), ArrayState(0, {}, map[]), TextureState(0, map[], map[], map[], {}),
           ShaderState(map[], {}), ProgramState(0, map[], map[], map[]), {}, 1, false, map[], driver)
  }

  /** Names are handed out from a counter that starts at 1, so every live name is non-zero and
      below the counter, and no program the counter has not reached has shaders attached. */
  ghost predicate WellFormed(s: GLData) {
    && 0 < s.next
    && (forall h :: h in s.live ==> 0 < h < s.next)
    && (forall p :: p in s.prog.attached ==> p < s.next)
  }

  // ---------------------------------------------------------------- observations

  /** The element-array buffer recorded in vertex array `vao` (section 10.3.1 of the OpenGL 4.6
      core profile specification makes this binding part of the vertex array's state). */
  function ElementOf(s: GLData, vao: Handle): Handle {
    if vao in s.buf.elementBuffers then s.buf.elementBuffers[vao] else 0
  }

  function ElementBinding(s: GLData): Handle {
    ElementOf(s, s.arr.vertexArray)
  }

  function Bound(s: GLData, target: BufferTarget): Handle {
    match target
    case ArrayBuffer => s.buf.arrayBuffer
    case ElementArrayBuffer => ElementBinding(s)
  }

  function TextureOn(s: GLData, unit: nat): Handle {
    if unit in s.tex.units then s.tex.units[unit] else 0
  }

  function BoundTexture(s: GLData): Handle {
    TextureOn(s, s.tex.activeUnit)
  }

  function CompileLog(d: Driver, source: string): string {
    if source in d.compileLogs then d.compileLogs[source] else ""
  }

  function ShaderLog(s: GLData, shader: Handle): string {
    if shader in s.sh.compiled && shader in s.sh.sources then CompileLog(s.driver, s.sh.sources[shader]) else ""
  }

  function AttachedSources(s: GLData, program: Handle): set<string> {
    if program in s.prog.attached then set sh | sh in s.prog.attached[program] && sh in s.sh.sources :: s.sh.sources[sh] else {}
  }

  function LinkStatus(s: GLData, program: Handle): int {
    if program in s.prog.linkedWith && s.prog.linkedWith[program] !in s.driver.linkLogs then 1 else 0
  }

  function ProgramLog(s: GLData, program: Handle): string {
    if program in s.prog.linkedWith && s.prog.linkedWith[program] in s.driver.linkLogs then s.driver.linkLogs[s.prog.linkedWith[program]] else ""
  }

  /** glGetUniformLocation: -1 unless the program is linked and the driver gave the name a location. */
  function UniformLocation(s: GLData, program: Handle, name: string): int {
    if LinkStatus(s, program) == 1 && (s.prog.linkedWith[program], name) in s.driver.uniformLocations
    then s.driver.uniformLocations[(s.prog.linkedWith[program], name)]
    else -1
  }

  /** Calls that hand out a new name. */
  predicate IsGen(c: Call) {
    || (c.Buf? && c.b.GenBuffer?) || (c.Arr? && c.a.GenVertexArray?) || (c.Tex? && c.t.GenTexture?)
    || (c.Sh? && c.sh.CreateShader?) || (c.Prog? && c.p.CreateProgram?)
  }

  /** Calls that return a value instead of changing state; the driver never rejects them. */
  predicate IsQuery(c: Call) {
    || IsGen(c) || (c.Sh? && c.sh.GetShaderInfoLog?)
    || (c.Prog? && (c.p.GetLinkStatus? || c.p.GetProgramInfoLog? || c.p.GetUniformLocation?))
    || c.GetMaxLabelLength? || c.GetError?
  }

  predicate Fits(t: TexImage, x: int, y: int, w: int, h: int, rows: seq<seq<Rgba32>>) {
    && 0 <= x && 0 <= y && 0 <= w && 0 <= h && x + w <= t.width && y + h <= t.height
    && |rows| == h && forall i :: 0 <= i < h ==> |rows[i]| == w
  }

  function PixelAt(bytes: seq<Byte>, width: nat, x: nat, y: nat): Option<Rgba32> {
    var i := 4 * (y * width + x);
    if 0 <= i && i + 4 <= |bytes| then Some(Rgba32(bytes[i], bytes[i + 1], bytes[i + 2], bytes[i + 3])) else None
  }

  /** The texel at (x, y): from the newest rectangle that covers it, else from the initial data;
      `None` where the texel was never defined. */
  function Texel(t: TexImage, x: int, y: int): Option<Rgba32>
    decreases |t.writes|
  {
    if t.writes == [] then
      (if t.pixels.Some? && 0 <= x && 0 <= y then PixelAt(t.pixels.value, t.width, x, y) else None)
    else
      var w := t.writes[|t.writes| - 1];
      if w.x <= x < w.x + w.w && w.y <= y < w.y + w.h && y - w.y < |w.rows| && x - w.x < |w.rows[y - w.y]|
      then Some(w.rows[y - w.y][x - w.x])
      else Texel(t.(writes := t.writes[..|t.writes| - 1]), x, y)
  }

  /** A new name: the counter's value becomes live. */
  function Allocate(s: GLData): (r: GLData)
    ensures r.live == s.live + {s.next} && r.next == s.next + 1
  {
    s.(live := s.live + {s.next}, next := s.next + 1)
  }

  /** A refused command only raises the error flag. */
  function Raise(s: GLData): GLData {
    s.(error := true)
  }

  // ---------------------------------------------------------------- buffers

  /** glBufferData needs a buffer bound to its target. */
  predicate BufferInvalid(s: GLData, c: BufferCall) {
    c.BufferData? && Bound(s, c.target) == 0
  }

  function BufferEffect(s: GLData, c: BufferCall): GLData {
    match c
    case GenBuffer => Allocate(s)
    case BindBuffer(target, b) =>
      (match target
       case ArrayBuffer => s.(buf := s.buf.(arrayBuffer := b))
       case ElementArrayBuffer => s.(buf := s.buf.(elementBuffers := s.buf.elementBuffers[s.arr.vertexArray := b])))
    case BufferData(target, bytes, data, usage) =>
      s.(buf := s.buf.(stores := s.buf.stores[Bound(s, target) := BufferStore(bytes, data, usage)]))
    case DeleteBuffer(b) => s.(live := s.live - {b})
  }

  function BufferStep(s: GLData, c: BufferCall): GLData {
    if !c.GenBuffer? && (Buf(c) in s.driver.rejects || BufferInvalid(s, c)) then Raise(s) else BufferEffect(s, c)
  }

  // ---------------------------------------------------------------- vertex arrays

  /** Attribute commands need a bound vertex array in the core profile. */
  predicate ArrayInvalid(s: GLData, c: ArrayCall) {
    (c.EnableVertexAttribArray? || c.VertexAttribPointer?) && s.arr.vertexArray == 0
  }

  function ArrayEffect(s: GLData, c: ArrayCall): GLData {
    match c
    case GenVertexArray => Allocate(s)
    case BindVertexArray(v) => s.(arr := s.arr.(vertexArray := v))
    case DeleteVertexArray(v) => s.(live := s.live - {v})
    case EnableVertexAttribArray(i) => s.(arr := s.arr.(enabled := s.arr.enabled + {(s.arr.vertexArray, i)}))
    case VertexAttribPointer(i, size, ty, norm, stride, offset) =>
      s.(arr := s.arr.(pointers := s.arr.pointers[(s.arr.vertexArray, i) := AttribPointer(s.buf.arrayBuffer, size, ty, norm, stride, offset)]))
  }

  function ArrayStep(s: GLData, c: ArrayCall): GLData {
    if !c.GenVertexArray? && (Arr(c) in s.driver.rejects || ArrayInvalid(s, c)) then Raise(s) else ArrayEffect(s, c)
  }

  // ---------------------------------------------------------------- textures

  /** Texture commands need a bound texture; a sub-image needs defined storage and, on level 0,
      must lie inside it; mipmaps need defined storage. */
  predicate TextureInvalid(s: GLData, c: TextureCall) {
    match c
    case TexImage2D(_, _, _, _, _) => BoundTexture(s) == 0
    case TexSubImage2D(level, x, y, w, h, rows) =>
      BoundTexture(s) !in s.tex.images || (level == 0 && !Fits(s.tex.images[BoundTexture(s)], x, y, w, h, rows))
    case TexParameter(_, _) => BoundTexture(s) == 0
    case GenerateMipmap => BoundTexture(s) !in s.tex.images
    case _ => false
  }

  function TextureEffect(s: GLData, c: TextureCall): GLData {
    match c
    case GenTexture => Allocate(s)
    case ActiveTexture(u) => s.(tex := s.tex.(activeUnit := u))
    case BindTexture(t) => s.(tex := s.tex.(units := s.tex.units[s.tex.activeUnit := t]))
    case TexImage2D(level, format, w, h, bytes) =>
      if level == 0 then s.(tex := s.tex.(images := s.tex.images[BoundTexture(s) := TexImage(format, w, h, bytes, [])])) else s
    case TexSubImage2D(level, x, y, w, h, rows) =>
      if level == 0 && BoundTexture(s) in s.tex.images
      then
        var t := s.tex.images[BoundTexture(s)];
        s.(tex := s.tex.(images := s.tex.images[BoundTexture(s) := t.(writes := t.writes + [SubImage(x, y, w, h, rows)])]))
      else s
    case TexParameter(p, v) => s.(tex := s.tex.(params := s.tex.params[(BoundTexture(s), p) := v]))
    case GenerateMipmap => s.(tex := s.tex.(mipmapped := s.tex.mipmapped + {BoundTexture(s)}))
    case DeleteTexture(t) => s.(live := s.live - {t})
  }

  function TextureStep(s: GLData, c: TextureCall): GLData {
    if !c.GenTexture? && (Tex(c) in s.driver.rejects || TextureInvalid(s, c)) then Raise(s) else TextureEffect(s, c)
  }

  // ---------------------------------------------------------------- shaders

  function ShaderEffect(s: GLData, c: ShaderCall): GLData {
    match c
    case CreateShader(_) => Allocate(s)
    case ShaderSource(sh, src) => s.(sh := s.sh.(sources := s.sh.sources[sh := src], compiled := s.sh.compiled - {sh}))
    case CompileShader(sh) => s.(sh := s.sh.(compiled := s.sh.compiled + {sh}))
    case GetShaderInfoLog(_) => s
    case DeleteShader(sh) => s.(live := s.live - {sh})
  }

  /** glCreateShader and glGetShaderInfoLog are queries and are never refused. */
  function ShaderStep(s: GLData, c: ShaderCall): GLData {
    if !c.CreateShader? && !c.GetShaderInfoLog? && Sh(c) in s.driver.rejects then Raise(s) else ShaderEffect(s, c)
  }

  // ---------------------------------------------------------------- programs

  /** Attaching, detaching and linking need live names; a uniform write needs a current program. */
  predicate ProgramInvalid(s: GLData, c: ProgramCall) {
    match c
    case AttachShader(p, sh) => p !in s.live || sh !in s.live
    case DetachShader(p, sh) => p !in s.live || sh !in s.live
    case LinkProgram(p) => p !in s.live
    case Uniform(_, _) => s.prog.current == 0
    case _ => false
  }

  predicate ProgramQuery(c: ProgramCall) {
    c.CreateProgram? || c.GetLinkStatus? || c.GetProgramInfoLog? || c.GetUniformLocation?
  }

  /** Linking records the sources of the attached shaders; a write to location -1 is ignored,
      as the specification requires. */
  function ProgramEffect(s: GLData, c: ProgramCall): GLData {
    match c
    case CreateProgram => Allocate(s)
    case AttachShader(p, sh) =>
      s.(prog := s.prog.(attached := s.prog.attached[p := (if p in s.prog.attached then s.prog.attached[p] else {}) + {sh}]))
    case DetachShader(p, sh) =>
      s.(prog := s.prog.(attached := s.prog.attached[p := (if p in s.prog.attached then s.prog.attached[p] else {}) - {sh}]))
    case LinkProgram(p) => s.(prog := s.prog.(linkedWith := s.prog.linkedWith[p := AttachedSources(s, p)]))
    case GetLinkStatus(_) => s
    case GetProgramInfoLog(_) => s
    case UseProgram(p) => s.(prog := s.prog.(current := p))
    case DeleteProgram(p) => s.(live := s.live - {p})
    case GetUniformLocation(_, _) => s
    case Uniform(loc, v) => if loc == -1 then s else s.(prog := s.prog.(uniforms := s.prog.uniforms[(s.prog.current, loc) := v]))
  }

  function ProgramStep(s: GLData, c: ProgramCall): GLData {
    if !ProgramQuery(c) && (Prog(c) in s.driver.rejects || ProgramInvalid(s, c)) then Raise(s) else ProgramEffect(s, c)
  }

  // ---------------------------------------------------------------- other calls

  /** glObjectLabel: section 20.9 of the OpenGL 4.6 core profile specification refuses a name
      that is not a live object and a label of MAX_LABEL_LENGTH characters or more. */
  function LabelStep(s: GLData, kind: ObjectKind, labelled: Handle, length: nat, text: string): GLData {
    var c := ObjectLabel(kind, labelled, length, text);
    if c in s.driver.rejects || labelled !in s.live || length >= s.driver.maxLabelLength then Raise(s)
    else s.(labels := s.labels[labelled := text])
  }

  /** Draw calls change no state the model tracks; the driver may still refuse them. */
  function DrawStep(s: GLData, c: Call): GLData {
    if c in s.driver.rejects then Raise(s) else s
  }

  /** One call: glGetError reports and clears the error flag; a command the driver or the context
      refuses only raises the flag; anything else takes effect. */
  function Step(s: GLData, c: Call): GLData {
    match c
    case Buf(b) => BufferStep(s, b)
    case Arr(a) => ArrayStep(s, a)
    case Tex(t) => TextureStep(s, t)
    case Sh(sh) => ShaderStep(s, sh)
    case Prog(p) => ProgramStep(s, p)
    case DrawElements(_) => DrawStep(s, c)
    case DrawArrays(_, _) => DrawStep(s, c)
    case GetMaxLabelLength => s
    case ObjectLabel(kind, labelled, length, text) => LabelStep(s, kind, labelled, length, text)
    case GetError => s.(error := false)
  }

  /** The driver refuses none of `cs`. */
  predicate Accepts(d: Driver, cs: seq<Call>) {
    forall i :: 0 <= i < |cs| ==> cs[i] !in d.rejects
  }

  /** The driver accepts a concatenation exactly when it accepts both parts. */
  lemma AcceptsParts(d: Driver, a: seq<Call>, b: seq<Call>)
    ensures Accepts(d, a + b) <==> Accepts(d, a) && Accepts(d, b)
  {
    if Accepts(d, a + b) {
      forall i | 0 <= i < |a|
        ensures a[i] !in d.rejects
      {
        assert a[i] == (a + b)[i];
      }
      forall i | 0 <= i < |b|
        ensures b[i] !in d.rejects
      {
        assert b[i] == (a + b)[|a| + i];
      }
    }
    if Accepts(d, a) && Accepts(d, b) {
      forall i | 0 <= i < |a + b|
        ensures (a + b)[i] !in d.rejects
      {
        if i < |a| {
          assert (a + b)[i] == a[i];
        } else {
          assert (a + b)[i] == b[i - |a|];
        }
      }
    }
  }

  /** Every call keeps the state well formed and the driver fixed; names are never reused. */
  lemma StepKeeps(s: GLData, c: Call)
    requires WellFormed(s)
    ensures Keeps(s, Step(s, c))
  {
    match c
    case Buf(b) => BufferKeeps(s, b);
    case Arr(a) => ArrayKeeps(s, a);
    case Tex(t) => TextureKeeps(s, t);
    case Sh(sh) => ShaderKeeps(s, sh);
    case Prog(p) => ProgramKeeps(s, p);
    case ObjectLabel(kind, labelled, length, text) => assert Step(s, c) == LabelStep(s, kind, labelled, length, text);
    case DrawElements(_) => assert Step(s, c) == DrawStep(s, c);
    case DrawArrays(_, _) => assert Step(s, c) == DrawStep(s, c);
    case GetMaxLabelLength =>
    case GetError =>
  }

  /** `r` is well formed, with the same driver as `s` and a counter no lower. */
  ghost predicate Keeps(s: GLData, r: GLData) {
    WellFormed(r) && r.driver == s.driver && r.next >= s.next
  }

  lemma BufferKeeps(s: GLData, c: BufferCall)
    requires WellFormed(s)
    ensures Keeps(s, BufferStep(s, c))
  {
  }

  lemma ArrayKeeps(s: GLData, c: ArrayCall)
    requires WellFormed(s)
    ensures Keeps(s, ArrayStep(s, c))
  {
  }

  lemma TextureKeeps(s: GLData, c: TextureCall)
    requires WellFormed(s)
    ensures Keeps(s, TextureStep(s, c))
  {
  }

  lemma ShaderKeeps(s: GLData, c: ShaderCall)
    requires WellFormed(s)
    ensures Keeps(s, ShaderStep(s, c))
  {
  }

  lemma ProgramKeeps(s: GLData, c: ProgramCall)
    requires WellFormed(s)
    ensures Keeps(s, ProgramStep(s, c))
  {
  }

  /** Errors stick: a command other than glGetError never clears the flag. */
  lemma ErrorSticks(s: GLData, c: Call)
    requires !c.GetError? && s.error
    ensures Step(s, c).error
  {
  }

  /** A texture command that leaves the flag clear found it clear and took effect. */
  lemma TextureClear(s: GLData, c: TextureCall)
    requires !TextureStep(s, c).error
    ensures !s.error && !TextureInvalid(s, c) && (c.GenTexture? || Tex(c) !in s.driver.rejects)
    ensures TextureStep(s, c) == TextureEffect(s, c)
  {
  }

  /** Queries other than Gen and Create change nothing. */
  lemma QueriesChangeNothing(s: GLData, c: Call)
    requires IsQuery(c) && !IsGen(c) && !c.GetError?
    ensures Step(s, c) == s
  {
  }

  /** A name handed out by Gen or Create is fresh: non-zero and not live before. */
  lemma GenIsFresh(s: GLData, c: Call)
    requires WellFormed(s) && IsGen(c)
    ensures s.next != 0 && s.next !in s.live
    ensures Step(s, c) == Allocate(s)
  {
  }

  // ---------------------------------------------------------------- runs of calls

  /** The state after issuing `cs` in order on `s`. */
  function Applied(s: GLData, cs: seq<Call>): GLData
    decreases |cs|
  {
    if cs == [] then s else Step(Applied(s, cs[..|cs| - 1]), cs[|cs| - 1])
  }

  lemma AppliedSnoc(s: GLData, cs: seq<Call>, c: Call)
    ensures Applied(s, cs + [c]) == Step(Applied(s, cs), c)
  {
    assert (cs + [c])[..|cs|] == cs;
  }

  lemma Applied4(s: GLData, c0: Call, c1: Call, c2: Call, c3: Call)
    ensures Applied(s, [c0, c1, c2, c3]) == Step(Step(Step(Step(s, c0), c1), c2), c3)
  {
    AppliedSnoc(s, [], c0);
    AppliedSnoc(s, [c0], c1);
    AppliedSnoc(s, [c0, c1], c2);
    AppliedSnoc(s, [c0, c1, c2], c3);
    assert Applied(s, []) == s;
    assert [] + [c0] == [c0] && [c0] + [c1] == [c0, c1] && [c0, c1] + [c2] == [c0, c1, c2];
    assert [c0, c1, c2] + [c3] == [c0, c1, c2, c3];
  }

  /** Issuing `a` and then `b` is issuing `a + b`. */
  lemma {:induction false} AppliedAppend(s: GLData, a: seq<Call>, b: seq<Call>)
    ensures Applied(s, a + b) == Applied(Applied(s, a), b)
    decreases |b|
  {
    if b == [] {
      assert a + b == a;
    } else {
      var front, last := b[..|b| - 1], b[|b| - 1];
      assert a + b == (a + front) + [last] && b == front + [last];
      AppliedSnoc(s, a + front, last);
      AppliedAppend(s, a, front);
      AppliedSnoc(Applied(s, a), front, last);
    }
  }

  /** The name a deletion call releases; other calls release none. */
  function DeletedBy(c: Call): Option<Handle> {
    match c
    case Buf(DeleteBuffer(b)) => Some(b)
    case Arr(DeleteVertexArray(v)) => Some(v)
    case Tex(DeleteTexture(t)) => Some(t)
    case Sh(DeleteShader(sh)) => Some(sh)
    case Prog(DeleteProgram(p)) => Some(p)
    case _ => None
  }

  predicate AllDeletions(cs: seq<Call>) {
    forall i :: 0 <= i < |cs| ==> DeletedBy(cs[i]).Some?
  }

  /** The names the driver lets the deletions `cs` release. */
  function Released(d: Driver, cs: seq<Call>): set<Handle>
    requires AllDeletions(cs)
    decreases |cs|
  {
    if cs == [] then {}
    else Released(d, cs[..|cs| - 1]) + (if cs[|cs| - 1] in d.rejects then {} else {DeletedBy(cs[|cs| - 1]).value})
  }

  /** The deletions of `a + b` release what those of `a` and of `b` release. */
  lemma {:induction false} ReleasedAppend(d: Driver, a: seq<Call>, b: seq<Call>)
    requires AllDeletions(a) && AllDeletions(b)
    ensures AllDeletions(a + b) && Released(d, a + b) == Released(d, a) + Released(d, b)
    decreases |b|
  {
    assert forall i :: 0 <= i < |a + b| ==> (a + b)[i] == if i < |a| then a[i] else b[i - |a|];
    if b == [] {
      assert a + b == a;
    } else {
      var front := b[..|b| - 1];
      assert (a + b)[..|a + b| - 1] == a + front;
      ReleasedAppend(d, a, front);
    }
  }

  /** A name is released exactly when one of the deletions names it and the driver accepts that
      call. */
  lemma {:induction false} ReleasedNames(d: Driver, cs: seq<Call>, h: Handle)
    requires AllDeletions(cs)
    ensures h in Released(d, cs) <==> exists i :: 0 <= i < |cs| && cs[i] !in d.rejects && DeletedBy(cs[i]) == Some(h)
    decreases |cs|
  {
    if cs != [] {
      var front := cs[..|cs| - 1];
      ReleasedNames(d, front, h);
      if exists i :: 0 <= i < |cs| && cs[i] !in d.rejects && DeletedBy(cs[i]) == Some(h) {
        var i :| 0 <= i < |cs| && cs[i] !in d.rejects && DeletedBy(cs[i]) == Some(h);
        if i < |front| {
          assert front[i] == cs[i];
        }
      }
      if exists i :: 0 <= i < |front| && front[i] !in d.rejects && DeletedBy(front[i]) == Some(h) {
        var i :| 0 <= i < |front| && front[i] !in d.rejects && DeletedBy(front[i]) == Some(h);
        assert cs[i] == front[i];
      }
    }
  }

  /** A deletion the driver accepts releases its name; one it refuses raises the flag. */
  lemma DeletionStep(s: GLData, c: Call)
    requires DeletedBy(c).Some?
    ensures Step(s, c) == if c in s.driver.rejects then s.(error := true) else s.(live := s.live - {DeletedBy(c).value})
  {
  }

  /** A run of deletions changes nothing but liveness and the error flag: the names the driver
      accepts are released, and the flag ends up raised exactly when it was raised already or
      the driver refused one of the calls. */
  lemma {:induction false} DeletionsRelease(s: GLData, cs: seq<Call>)
    requires AllDeletions(cs)
    ensures Applied(s, cs) == s.(live := s.live - Released(s.driver, cs), error := s.error || !Accepts(s.driver, cs))
    decreases |cs|
  {
    if cs == [] {
      assert s.(live := s.live - {}, error := s.error) == s;
    } else {
      var front, last := cs[..|cs| - 1], cs[|cs| - 1];
      assert cs == front + [last];
      DeletionsRelease(s, front);
      AcceptsParts(s.driver, front, [last]);
      DeletionStep(Applied(s, front), last);
    }
  }

  /** The mutable context object the engine holds. */
  class GLState {
    var state: GLData
    ghost var trace: seq<Call>

    /** The context's state stays well formed; `trace` logs every call issued on it. */
    ghost predicate Valid()
      reads this
    {
      WellFormed(state)
    }

    constructor (driver: Driver)
      ensures Valid() && trace == [] && state == Fresh(driver)
    {
      state := Fresh(driver);
      trace := [];
    }

    /** Issues one call. */
    method Apply(c: Call)
      requires Valid()
      modifies this
      ensures Valid()
      ensures state == Step(old(state), c) && trace == old(trace) + [c]
    {
      StepKeeps(state, c);
      state := Step(state, c);
      trace := trace + [c];
    }

    method ApplyBuffer(c: BufferCall)
      requires Valid()
      modifies this
      ensures Valid()
      ensures state == BufferStep(old(state), c) && trace == old(trace) + [Buf(c)]
    {
      Apply(Buf(c));
    }

    method ApplyArray(c: ArrayCall)
      requires Valid()
      modifies this
      ensures Valid()
      ensures state == ArrayStep(old(state), c) && trace == old(trace) + [Arr(c)]
    {
      Apply(Arr(c));
    }

    method ApplyTexture(c: TextureCall)
      requires Valid()
      modifies this
      ensures Valid()
      ensures state == TextureStep(old(state), c) && trace == old(trace) + [Tex(c)]
    {
      Apply(Tex(c));
    }

    method ApplyShader(c: ShaderCall)
      requires Valid()
      modifies this
      ensures Valid()
      ensures state == ShaderStep(old(state), c) && trace == old(trace) + [Sh(c)]
    {
      Apply(Sh(c));
    }

    method ApplyProgram(c: ProgramCall)
      requires Valid()
      modifies this
      ensures Valid()
      ensures state == ProgramStep(old(state), c) && trace == old(trace) + [Prog(c)]
    {
      Apply(Prog(c));
    }

    /** glDrawElements / glDrawArrays. */
    method Draw(c: Call)
      requires Valid() && (c.DrawElements? || c.DrawArrays?)
      modifies this
      ensures Valid()
      ensures state == DrawStep(old(state), c) && trace == old(trace) + [c]
    {
      Apply(c);
    }

    method ObjectLabel(kind: ObjectKind, labelled: Handle, length: nat, text: string)
      requires Valid()
      modifies this
      ensures Valid()
      ensures state == LabelStep(old(state), kind, labelled, length, text)
      ensures trace == old(trace) + [Call.ObjectLabel(kind, labelled, length, text)]
    {
      Apply(Call.ObjectLabel(kind, labelled, length, text));
    }

    /** glGenBuffers, glGenVertexArrays, glGenTextures, glCreateShader, glCreateProgram. */
    method Gen(c: Call) returns (h: Handle)
      requires Valid() && IsGen(c)
      modifies this
      ensures Valid() && state == Allocate(old(state)) && trace == old(trace) + [c]
      ensures h == old(state).next && h != 0 && h !in old(state).live
    {
      h := state.next;
      GenIsFresh(state, c);
      Apply(c);
    }

    method GetShaderInfoLog(shader: Handle) returns (log: string)
      requires Valid()
      modifies this
      ensures Valid() && state == old(state) && trace == old(trace) + [Sh(ShaderCall.GetShaderInfoLog(shader))]
      ensures log == ShaderLog(old(state), shader)
    {
      log := ShaderLog(state, shader);
      Apply(Sh(ShaderCall.GetShaderInfoLog(shader)));
    }

    method GetLinkStatus(program: Handle) returns (status: int)
      requires Valid()
      modifies this
      ensures Valid() && state == old(state) && trace == old(trace) + [Prog(ProgramCall.GetLinkStatus(program))]
      ensures status == LinkStatus(old(state), program)
    {
      status := LinkStatus(state, program);
      Apply(Prog(ProgramCall.GetLinkStatus(program)));
    }

    method GetProgramInfoLog(program: Handle) returns (log: string)
      requires Valid()
      modifies this
      ensures Valid() && state == old(state) && trace == old(trace) + [Prog(ProgramCall.GetProgramInfoLog(program))]
      ensures log == ProgramLog(old(state), program)
    {
      log := ProgramLog(state, program);
      Apply(Prog(ProgramCall.GetProgramInfoLog(program)));
    }

    method GetUniformLocation(program: Handle, name: string) returns (loc: int)
      requires Valid()
      modifies this
      ensures Valid() && state == old(state) && trace == old(trace) + [Prog(ProgramCall.GetUniformLocation(program, name))]
      ensures loc == UniformLocation(old(state), program, name)
    {
      loc := UniformLocation(state, program, name);
      Apply(Prog(ProgramCall.GetUniformLocation(program, name)));
    }

    method GetMaxLabelLength() returns (n: int)
      requires Valid()
      modifies this
      ensures Valid() && state == old(state) && trace == old(trace) + [Call.GetMaxLabelLength]
      ensures n == old(state).driver.maxLabelLength
    {
      n := state.driver.maxLabelLength;
      Apply(Call.GetMaxLabelLength);
    }

    /** `EnsureCallSucceeded` (DebugUtils/GLErrorDetector.cs): glGetError, failing when it
        reports an error. The flag is cleared either way. */
    method EnsureCallSucceeded() returns (o: Outcome)
      requires Valid()
      modifies this
      ensures Valid() && state == old(state).(error := false) && trace == old(trace) + [Call.GetError]
      ensures o == if old(state).error then Fail(GLCallFailed) else Pass
    {
      o := if state.error then Fail(GLCallFailed) else Pass;
      Apply(Call.GetError);
    }
  }
}
