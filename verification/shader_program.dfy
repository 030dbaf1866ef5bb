/** `ShaderProgram` (GLAbstractions/ShaderProgram.cs) and its stand-alone twins
    `ShaderFactory.CreateShader` and `ProgramFactory.FromShaderFiles` (Shaders/): compile a vertex
    and a fragment stage read from `<current directory>/Shaders`, link them into a program, and
    write uniforms by name. */
module Shaders {
  import opened Values
  import opened GL

  /** `Path.Combine(BasePath, "Shaders", filename)`, BasePath being the current directory. */
  function ShaderPath(cwd: string, filename: string): (p: string)
    ensures p == cwd + "/Shaders/" + filename
  {
    Combine(Combine(cwd, "Shaders"), filename)
  }

  // ---------------------------------------------------------------- one stage

  function CompileCalls(stage: ShaderStage, h: Handle, text: string): seq<Call> {
    [Sh(CreateShader(stage)), Sh(ShaderSource(h, text)), Sh(CompileShader(h)), Sh(ShaderCall.GetShaderInfoLog(h))]
  }

  /** The state after creating shader `s.next`, giving it `text` and compiling it. */
  function Compiled(s: GLData, text: string): GLData {
    ShaderStep(ShaderStep(Allocate(s), ShaderSource(s.next, text)), CompileShader(s.next))
  }

  /** `LoadShader` / `ShaderFactory.CreateShader`: a missing file fails before any GL call; a
      non-empty compile log fails naming the stage and the file; otherwise the new shader. */
  function Load(s: GLData, disk: Disk, stage: ShaderStage, filename: string): Issued<Handle> {
    match ReadAllText(disk, ShaderPath(disk.cwd, filename))
    case Failure(e) => Issued(s, [], Failure(e))
    case Success(text) =>
      var r := Compiled(s, text);
      var log := ShaderLog(r, s.next);
      Issued(r, CompileCalls(stage, s.next, text),
             if log == "" then Success(s.next) else Failure(InvalidOperation(CompileFailed(stage, filename, log))))
  }

  /** Once the driver accepts the source and the compile, the new shader is live, holds the
      text, and its log is the driver's log for that text; programs are untouched. So a stage
      loads exactly when its file exists and its source compiles without a log. */
  lemma LoadEffect(s: GLData, disk: Disk, stage: ShaderStage, filename: string)
    requires WellFormed(s)
    requires Accepts(s.driver, Load(s, disk, stage, filename).calls)
    ensures var path := ShaderPath(disk.cwd, filename);
            var l := Load(s, disk, stage, filename);
            && (path !in disk.textFiles ==> l == Issued(s, [], Failure(FileNotFound(path))))
            && (path in disk.textFiles ==>
                  var text := disk.textFiles[path];
                  && s.next !in s.live && l.state.live == s.live + {s.next} && l.state.next == s.next + 1
                  && WellFormed(l.state) && l.state.driver == s.driver
                  && l.state.sh.sources == s.sh.sources[s.next := text] && s.next in l.state.sh.compiled
                  && l.state.prog == s.prog && !l.state.error == !s.error
                  && (l.result.Success? <==> CompileLog(s.driver, text) == "")
                  && (l.result.Success? ==> l.result.value == s.next)
                  && (l.result.Failure? ==> l.result.error == InvalidOperation(CompileFailed(stage, filename, CompileLog(s.driver, text)))))
  {
    var path := ShaderPath(disk.cwd, filename);
    if path in disk.textFiles {
      var cs := CompileCalls(stage, s.next, disk.textFiles[path]);
      assert cs[1] !in s.driver.rejects && cs[2] !in s.driver.rejects;
    }
  }

  // ---------------------------------------------------------------- the program

  /** Create the program, attach both stages, link, and read the status. */
  function LinkCalls(p: Handle, v: Handle, f: Handle): seq<Call> {
    [Prog(CreateProgram), Prog(AttachShader(p, v)), Prog(AttachShader(p, f)), Prog(LinkProgram(p)), Prog(ProgramCall.GetLinkStatus(p))]
  }

  /** After a successful link the stages are no longer needed: detach both, delete both. */
  function CleanupCalls(p: Handle, v: Handle, f: Handle): seq<Call> {
    [Prog(DetachShader(p, v)), Prog(DetachShader(p, f)), Sh(DeleteShader(v)), Sh(DeleteShader(f))]
  }

  /** The state after creating program `s.next`, attaching `v` and `f`, and linking. */
  function Linked(s: GLData, v: Handle, f: Handle): GLData {
    var p := s.next;
    ProgramStep(ProgramStep(ProgramStep(Allocate(s), AttachShader(p, v)), AttachShader(p, f)), LinkProgram(p))
  }

  function CleanedUp(s: GLData, p: Handle, v: Handle, f: Handle): GLData {
    ShaderStep(ShaderStep(ProgramStep(ProgramStep(s, DetachShader(p, v)), DetachShader(p, f)), DeleteShader(v)), DeleteShader(f))
  }

  /** After both stages compiled: create and link the program, then either the link failure
      (naming both files, carrying the log, leaving the stages alive) or the clean-up and the
      program. */
  function Finished(s: GLData, v: Handle, f: Handle, vertexFilename: string, fragmentFilename: string): Issued<Handle> {
    var p := s.next;
    var linked := Linked(s, v, f);
    if LinkStatus(linked, p) == 0
    then Issued(linked, LinkCalls(p, v, f) + [Prog(ProgramCall.GetProgramInfoLog(p))],
                Failure(InvalidOperation(LinkFailed(vertexFilename, fragmentFilename, ProgramLog(linked, p)))))
    else Issued(CleanedUp(linked, p, v, f), LinkCalls(p, v, f) + CleanupCalls(p, v, f), Success(p))
  }

  /** The whole constructor: vertex stage, fragment stage, then the program. A failed stage
      stops everything before the program is created. */
  function Build(s: GLData, disk: Disk, vertexFilename: string, fragmentFilename: string): Issued<Handle> {
    var vs := Load(s, disk, VertexShader, vertexFilename);
    if vs.result.Failure? then vs
    else
      var fs := Load(vs.state, disk, FragmentShader, fragmentFilename);
      if fs.result.Failure? then Issued(fs.state, vs.calls + fs.calls, fs.result)
      else
        var fin := Finished(fs.state, vs.result.value, fs.result.value, vertexFilename, fragmentFilename);
        Issued(fin.state, vs.calls + fs.calls + fin.calls, fin.result)
  }

  /** Linking a fresh program with two fresh, compiled stages records exactly their two sources,
      so the link outcome is the driver's verdict on that pair of sources. */
  lemma LinkEffect(s: GLData, v: Handle, f: Handle)
    requires WellFormed(s) && v in s.live && f in s.live
    requires Accepts(s.driver, LinkCalls(s.next, v, f)) && v in s.sh.sources && f in s.sh.sources
    ensures var r := Linked(s, v, f);
            && s.next !in s.live && r.live == s.live + {s.next}
            && r.prog.attached == s.prog.attached[s.next := {v, f}]
            && r.prog.linkedWith == s.prog.linkedWith[s.next := {s.sh.sources[v], s.sh.sources[f]}]
            && (LinkStatus(r, s.next) == 1 <==> {s.sh.sources[v], s.sh.sources[f]} !in s.driver.linkLogs)
            && r.sh == s.sh && !r.error == !s.error
  {
    var p := s.next;
    var cs := LinkCalls(p, v, f);
    assert cs[1] !in s.driver.rejects && cs[2] !in s.driver.rejects && cs[3] !in s.driver.rejects;
    var a0 := Allocate(s);
    assert p !in s.prog.attached;
    assert !ProgramInvalid(a0, AttachShader(p, v));
    var a1 := ProgramStep(a0, AttachShader(p, v));
    assert a1 == ProgramEffect(a0, AttachShader(p, v));
    assert a1.prog.attached[p] == {v};
    assert a1.prog.attached == s.prog.attached[p := {v}];
    assert !ProgramInvalid(a1, AttachShader(p, f));
    var a2 := ProgramStep(a1, AttachShader(p, f));
    assert a2 == ProgramEffect(a1, AttachShader(p, f));
    assert a2.prog.attached[p] == {v, f};
    assert a2.prog.attached == s.prog.attached[p := {v, f}];
    assert AttachedSources(a2, p) == {s.sh.sources[v], s.sh.sources[f]};
  }

  /** The clean-up leaves the program with nothing attached and deletes both stages; the
      program itself stays alive and linked. */
  lemma CleanupEffect(s: GLData, p: Handle, v: Handle, f: Handle)
    requires p in s.live && v in s.live && f in s.live && p in s.prog.attached && s.prog.attached[p] == {v, f}
    requires Accepts(s.driver, CleanupCalls(p, v, f))
    ensures var r := CleanedUp(s, p, v, f);
            && r.live == s.live - {v, f} && r.prog.attached == s.prog.attached[p := {}]
            && r.prog.linkedWith == s.prog.linkedWith && !r.error == !s.error
  {
    var cs := CleanupCalls(p, v, f);
    assert cs[0] !in s.driver.rejects && cs[1] !in s.driver.rejects && cs[2] !in s.driver.rejects && cs[3] !in s.driver.rejects;
    var a1 := ProgramStep(s, DetachShader(p, v));
    assert a1 == s.(prog := s.prog.(attached := s.prog.attached[p := {v, f} - {v}]));
    var a2 := ProgramStep(a1, DetachShader(p, f));
    assert a2.prog.attached[p] == {};
    assert a2 == s.(prog := s.prog.(attached := s.prog.attached[p := {}]));
    var a3 := ShaderStep(a2, DeleteShader(v));
    assert a3.live == s.live - {v};
  }

  /** With two live compiled stages whose calls the driver accepts, the program is `s.next`; it
      links exactly when the driver links that pair of sources, and then it ends up alive with
      nothing attached, linked from the two sources, with both stages deleted. */
  lemma FinishedEffect(s: GLData, v: Handle, f: Handle, vertexFilename: string, fragmentFilename: string)
    requires WellFormed(s) && v in s.live && f in s.live && v != f && v in s.sh.sources && f in s.sh.sources
    requires Accepts(s.driver, Finished(s, v, f, vertexFilename, fragmentFilename).calls)
    ensures var r := Finished(s, v, f, vertexFilename, fragmentFilename);
            && (r.result.Success? <==> {s.sh.sources[v], s.sh.sources[f]} !in s.driver.linkLogs)
            && (r.result.Success? ==>
                  && r.result.value == s.next && r.state.live == s.live - {v, f} + {s.next}
                  && s.next in r.state.prog.attached && r.state.prog.attached[s.next] == {}
                  && s.next in r.state.prog.linkedWith && r.state.prog.linkedWith[s.next] == {s.sh.sources[v], s.sh.sources[f]})
  {
    var p := s.next;
    var r := Finished(s, v, f, vertexFilename, fragmentFilename);
    AcceptsParts(s.driver, LinkCalls(p, v, f), r.calls[5..]);
    assert r.calls == LinkCalls(p, v, f) + r.calls[5..];
    LinkEffect(s, v, f);
    var linked := Linked(s, v, f);
    if LinkStatus(linked, p) != 0 {
      CleanupEffect(linked, p, v, f);
    }
  }

  /** Both stages in a row: with the driver accepting their calls, the pair loads exactly when
      both files exist and both sources compile without a log, and then the stages are the next
      two names, live, distinct and holding their sources. */
  lemma StagesEffect(s: GLData, disk: Disk, vertexFilename: string, fragmentFilename: string)
    requires WellFormed(s)
    requires var vs := Load(s, disk, VertexShader, vertexFilename);
             Accepts(s.driver, vs.calls + Load(vs.state, disk, FragmentShader, fragmentFilename).calls)
    ensures var vs := Load(s, disk, VertexShader, vertexFilename);
            var fs := Load(vs.state, disk, FragmentShader, fragmentFilename);
            var vp, fp := ShaderPath(disk.cwd, vertexFilename), ShaderPath(disk.cwd, fragmentFilename);
            && (vs.result.Success? && fs.result.Success? <==>
                  && vp in disk.textFiles && fp in disk.textFiles
                  && CompileLog(s.driver, disk.textFiles[vp]) == "" && CompileLog(s.driver, disk.textFiles[fp]) == "")
            && (vs.result.Success? && fs.result.Success? ==>
                  && vs.result.value == s.next && fs.result.value == s.next + 1
                  && WellFormed(fs.state) && fs.state.next == s.next + 2 && fs.state.driver == s.driver
                  && fs.state.live == s.live + {s.next, s.next + 1}
                  && s.next in fs.state.sh.sources && fs.state.sh.sources[s.next] == disk.textFiles[vp]
                  && s.next + 1 in fs.state.sh.sources && fs.state.sh.sources[s.next + 1] == disk.textFiles[fp])
  {
    var vs := Load(s, disk, VertexShader, vertexFilename);
    var fs := Load(vs.state, disk, FragmentShader, fragmentFilename);
    AcceptsParts(s.driver, vs.calls, fs.calls);
    LoadEffect(s, disk, VertexShader, vertexFilename);
    if vs.result.Success? {
      LoadEffect(vs.state, disk, FragmentShader, fragmentFilename);
    }
  }

  /** With the driver accepting every call, the build is the two stage loads followed, when
      both load, by the link and its clean-up or failure report on the stages `s.next` and
      `s.next + 1`. */
  lemma BuildStages(s: GLData, disk: Disk, vertexFilename: string, fragmentFilename: string)
    requires WellFormed(s)
    requires Accepts(s.driver, Build(s, disk, vertexFilename, fragmentFilename).calls)
    ensures var vs := Load(s, disk, VertexShader, vertexFilename);
            var fs := Load(vs.state, disk, FragmentShader, fragmentFilename);
            var b := Build(s, disk, vertexFilename, fragmentFilename);
            && (vs.result.Failure? || fs.result.Failure? ==> b.result.Failure?)
            && Accepts(s.driver, vs.calls)
            && (vs.result.Success? ==> Accepts(s.driver, vs.calls + fs.calls))
            && (vs.result.Success? && fs.result.Success? ==>
                  var fin := Finished(fs.state, s.next, s.next + 1, vertexFilename, fragmentFilename);
                  && vs.result.value == s.next && fs.result.value == s.next + 1
                  && b == Issued(fin.state, vs.calls + fs.calls + fin.calls, fin.result)
                  && Accepts(s.driver, fin.calls))
  {
    var vs := Load(s, disk, VertexShader, vertexFilename);
    var b := Build(s, disk, vertexFilename, fragmentFilename);
    if vs.result.Success? {
      var fs := Load(vs.state, disk, FragmentShader, fragmentFilename);
      var tail := b.calls[|vs.calls| + |fs.calls|..];
      assert b.calls == vs.calls + fs.calls + tail;
      AcceptsParts(s.driver, vs.calls + fs.calls, tail);
      AcceptsParts(s.driver, vs.calls, fs.calls);
      if fs.result.Success? {
        StagesEffect(s, disk, vertexFilename, fragmentFilename);
        var fin := Finished(fs.state, s.next, s.next + 1, vertexFilename, fragmentFilename);
        assert tail == fin.calls;
      }
    }
  }

  /** When the driver accepts every call, building succeeds exactly when both files exist, both
      sources compile without a log and the driver links that pair of sources. */
  lemma BuildOutcome(s: GLData, disk: Disk, vertexFilename: string, fragmentFilename: string)
    requires WellFormed(s)
    requires Accepts(s.driver, Build(s, disk, vertexFilename, fragmentFilename).calls)
    ensures var b := Build(s, disk, vertexFilename, fragmentFilename);
            var vp, fp := ShaderPath(disk.cwd, vertexFilename), ShaderPath(disk.cwd, fragmentFilename);
            b.result.Success? <==>
              && vp in disk.textFiles && fp in disk.textFiles
              && CompileLog(s.driver, disk.textFiles[vp]) == "" && CompileLog(s.driver, disk.textFiles[fp]) == ""
              && {disk.textFiles[vp], disk.textFiles[fp]} !in s.driver.linkLogs
  {
    var vs := Load(s, disk, VertexShader, vertexFilename);
    BuildStages(s, disk, vertexFilename, fragmentFilename);
    LoadEffect(s, disk, VertexShader, vertexFilename);
    if vs.result.Success? {
      var fs := Load(vs.state, disk, FragmentShader, fragmentFilename);
      StagesEffect(s, disk, vertexFilename, fragmentFilename);
      if fs.result.Success? {
        FinishedEffect(fs.state, s.next, s.next + 1, vertexFilename, fragmentFilename);
      }
    }
  }

  /** A successful build's program is the third name handed out: alive, with nothing attached,
      linked from the two sources, and the stages are gone. */
  lemma BuildResult(s: GLData, disk: Disk, vertexFilename: string, fragmentFilename: string)
    requires WellFormed(s)
    requires Accepts(s.driver, Build(s, disk, vertexFilename, fragmentFilename).calls)
    requires Build(s, disk, vertexFilename, fragmentFilename).result.Success?
    ensures var b := Build(s, disk, vertexFilename, fragmentFilename);
            var vp, fp := ShaderPath(disk.cwd, vertexFilename), ShaderPath(disk.cwd, fragmentFilename);
            && vp in disk.textFiles && fp in disk.textFiles
            && b.result.value == s.next + 2 && b.state.live == s.live + {s.next + 2}
            && s.next + 2 in b.state.prog.attached && b.state.prog.attached[s.next + 2] == {}
            && s.next + 2 in b.state.prog.linkedWith && b.state.prog.linkedWith[s.next + 2] == {disk.textFiles[vp], disk.textFiles[fp]}
  {
    var vs := Load(s, disk, VertexShader, vertexFilename);
    BuildStages(s, disk, vertexFilename, fragmentFilename);
    var fs := Load(vs.state, disk, FragmentShader, fragmentFilename);
    StagesEffect(s, disk, vertexFilename, fragmentFilename);
    FinishedEffect(fs.state, s.next, s.next + 1, vertexFilename, fragmentFilename);
  }

  // ---------------------------------------------------------------- the imperative code

  /** `LoadShader(type, filename)` (and `ShaderFactory.CreateShader`). */
  method LoadShader(gl: GLState, disk: Disk, stage: ShaderStage, filename: string) returns (r: Result<Handle>)
    requires gl.Valid()
    modifies gl
    ensures gl.Valid()
    ensures var l := Load(old(gl.state), disk, stage, filename);
            gl.state == l.state && gl.trace == old(gl.trace) + l.calls && r == l.result
  {
    var shaderPath := ShaderPath(disk.cwd, filename);
    var shaderText := ReadAllText(disk, shaderPath);
    if shaderText.Failure? {
      return Failure(shaderText.error);
    }
    ghost var t0 := gl.trace;
    var id := gl.Gen(Sh(CreateShader(stage)));
    gl.ApplyShader(ShaderSource(id, shaderText.value));
    gl.ApplyShader(CompileShader(id));
    var errorLog := gl.GetShaderInfoLog(id);
    Appended4(t0, Sh(CreateShader(stage)), Sh(ShaderSource(id, shaderText.value)), Sh(CompileShader(id)), Sh(ShaderCall.GetShaderInfoLog(id)));
    if errorLog != "" {
      return Failure(InvalidOperation(CompileFailed(stage, filename, errorLog)));
    }
    return Success(id);
  }

  /** `ProgramFactory.FromShaderFiles`, which is also the body of the `ShaderProgram`
      constructor. */
  method BuildProgram(gl: GLState, disk: Disk, vertexFilename: string, fragmentFilename: string) returns (r: Result<Handle>)
    requires gl.Valid()
    modifies gl
    ensures gl.Valid()
    ensures var b := Build(old(gl.state), disk, vertexFilename, fragmentFilename);
            gl.state == b.state && gl.trace == old(gl.trace) + b.calls && r == b.result
  {
    ghost var s0, t0 := gl.state, gl.trace;
    var vertexId := LoadShader(gl, disk, VertexShader, vertexFilename);
    if vertexId.Failure? {
      return vertexId;
    }
    ghost var tv := gl.trace;
    var fragmentId := LoadShader(gl, disk, FragmentShader, fragmentFilename);
    ghost var vs := Load(s0, disk, VertexShader, vertexFilename);
    ghost var fs := Load(vs.state, disk, FragmentShader, fragmentFilename);
    if fragmentId.Failure? {
      Regrouped(t0, vs.calls, fs.calls, [], []);
      return fragmentId;
    }
    var v, f := vertexId.value, fragmentId.value;
    ghost var t1 := gl.trace;
    var programId := gl.Gen(Prog(CreateProgram));
    gl.ApplyProgram(AttachShader(programId, v));
    gl.ApplyProgram(AttachShader(programId, f));
    gl.ApplyProgram(LinkProgram(programId));
    var status := gl.GetLinkStatus(programId);
    LinkLog(t1, gl.trace, programId, v, f);
    assert gl.state == Linked(fs.state, v, f);
    if status == 0 {
      var errorLog := gl.GetProgramInfoLog(programId);
      Regrouped(t0, vs.calls, fs.calls, LinkCalls(programId, v, f), [Prog(ProgramCall.GetProgramInfoLog(programId))]);
      return Failure(InvalidOperation(LinkFailed(vertexFilename, fragmentFilename, errorLog)));
    }
    ghost var t2 := gl.trace;
    gl.ApplyProgram(DetachShader(programId, v));
    gl.ApplyProgram(DetachShader(programId, f));
    gl.ApplyShader(DeleteShader(v));
    gl.ApplyShader(DeleteShader(f));
    Appended4(t2, Prog(DetachShader(programId, v)), Prog(DetachShader(programId, f)), Sh(DeleteShader(v)), Sh(DeleteShader(f)));
    Regrouped(t0, vs.calls, fs.calls, LinkCalls(programId, v, f), CleanupCalls(programId, v, f));
    return Success(programId);
  }

  lemma LinkLog(t1: seq<Call>, trace: seq<Call>, p: Handle, v: Handle, f: Handle)
    requires trace == t1 + [Prog(CreateProgram)] + [Prog(AttachShader(p, v))] + [Prog(AttachShader(p, f))]
                        + [Prog(LinkProgram(p))] + [Prog(ProgramCall.GetLinkStatus(p))]
    ensures trace == t1 + LinkCalls(p, v, f)
  {
  }

  class ShaderProgram {
    const gl: GLState
    const handle: Handle

    constructor Wrap(gl: GLState, handle: Handle)
      ensures this.gl == gl && this.handle == handle
    {
      this.gl := gl;
      this.handle := handle;
    }

    /** `new ShaderProgram(gl, vertexFilename, fragmentFilename)`. */
    static method New(gl: GLState, disk: Disk, vertexFilename: string, fragmentFilename: string) returns (r: Result<ShaderProgram>)
      requires gl.Valid()
      modifies gl
      ensures gl.Valid()
      ensures var b := Build(old(gl.state), disk, vertexFilename, fragmentFilename);
              && gl.state == b.state && gl.trace == old(gl.trace) + b.calls
              && (r.Failure? <==> b.result.Failure?)
              && (r.Failure? ==> r.error == b.result.error)
              && (r.Success? ==> fresh(r.value) && r.value.gl == gl && r.value.handle == b.result.value)
    {
      var built := BuildProgram(gl, disk, vertexFilename, fragmentFilename);
      if built.Failure? {
        return Failure(built.error);
      }
      var program := new ShaderProgram.Wrap(gl, built.value);
      return Success(program);
    }

    /** `Use()`: make this program current. */
    method Use()
      requires gl.Valid()
      modifies gl
      ensures gl.Valid()
      ensures gl.trace == old(gl.trace) + [Prog(UseProgram(handle))] && gl.state == ProgramStep(old(gl.state), UseProgram(handle))
      ensures Prog(UseProgram(handle)) !in old(gl.state).driver.rejects ==> gl.state.prog.current == handle
    {
      gl.ApplyProgram(UseProgram(handle));
    }

    /** `GetUniformLocation(name)`: looked up afresh on every call; -1 fails naming the uniform. */
    method GetUniformLocation(name: string) returns (r: Result<int>)
      requires gl.Valid()
      modifies gl
      ensures gl.Valid() && gl.state == old(gl.state)
      ensures gl.trace == old(gl.trace) + [Prog(ProgramCall.GetUniformLocation(handle, name))]
      ensures r == Located(old(gl.state), handle, name)
    {
      var location := gl.GetUniformLocation(handle, name);
      if location == -1 {
        return Failure(InvalidOperation(UniformMissing(name)));
      }
      return Success(location);
    }

    /** `SetUniform(name, value)`: resolve the location in this program, then write the value
        through glUniform, which addresses whichever program is current. */
    method SetUniform(name: string, value: UniformValue) returns (o: Outcome)
      requires gl.Valid()
      modifies gl
      ensures gl.Valid()
      ensures match Located(old(gl.state), handle, name)
              case Failure(e) =>
                && o == Fail(e) && gl.state == old(gl.state)
                && gl.trace == old(gl.trace) + [Prog(ProgramCall.GetUniformLocation(handle, name))]
              case Success(loc) =>
                && o == Pass && gl.state == ProgramStep(old(gl.state), Uniform(loc, value))
                && gl.trace == old(gl.trace) + [Prog(ProgramCall.GetUniformLocation(handle, name)), Prog(Uniform(loc, value))]
    {
      var location := GetUniformLocation(name);
      if location.Failure? {
        return Fail(location.error);
      }
      gl.ApplyProgram(Uniform(location.value, value));
      return Pass;
    }

    /** Whether the linked program has the uniform: a location lookup that does not throw. The
        member is called by the scene code but is not part of the class shown. */
    method HasUniform(name: string) returns (b: bool)
      requires gl.Valid()
      modifies gl
      ensures gl.Valid() && gl.state == old(gl.state)
      ensures gl.trace == old(gl.trace) + [Prog(ProgramCall.GetUniformLocation(handle, name))]
      ensures b <==> Located(old(gl.state), handle, name).Success?
    {
      var location := gl.GetUniformLocation(handle, name);
      b := location != -1;
    }

    method Dispose()
      requires gl.Valid()
      modifies gl
      ensures gl.Valid()
      ensures gl.trace == old(gl.trace) + [Prog(DeleteProgram(handle))] && gl.state == ProgramStep(old(gl.state), DeleteProgram(handle))
      ensures Prog(DeleteProgram(handle)) !in old(gl.state).driver.rejects ==> gl.state.live == old(gl.state).live - {handle}
    {
      gl.ApplyProgram(DeleteProgram(handle));
    }
  }

  /** The location `GetUniformLocation` resolves: -1 becomes the missing-uniform failure. */
  function Located(s: GLData, program: Handle, name: string): (r: Result<int>)
    ensures r.Failure? <==> UniformLocation(s, program, name) == -1
    ensures r.Failure? ==> r.error == InvalidOperation(UniformMissing(name))
    ensures r.Success? ==> r.value == UniformLocation(s, program, name) && r.value != -1
  {
    var location := UniformLocation(s, program, name);
    if location == -1 then Failure(InvalidOperation(UniformMissing(name))) else Success(location)
  }

  /** A resolved write stores the value for the current program, which need not be the program
      the location was resolved in; nothing else changes. */
  lemma UniformEffect(s: GLData, loc: int, value: UniformValue)
    requires loc != -1 && s.prog.current != 0 && Prog(Uniform(loc, value)) !in s.driver.rejects
    ensures ProgramStep(s, Uniform(loc, value)) == s.(prog := s.prog.(uniforms := s.prog.uniforms[(s.prog.current, loc) := value]))
  {
  }

  /** Without a current program the write is refused and only raises the error flag. */
  lemma UniformWithoutProgram(s: GLData, loc: int, value: UniformValue)
    requires s.prog.current == 0 && loc != -1
    ensures ProgramStep(s, Uniform(loc, value)) == s.(error := true)
  {
  }
}
