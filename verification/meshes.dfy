/** The meshes (Meshes/): constant tables plus the GL calls each one issues to draw itself.
    A mesh's drawing method is specified by the list of steps it runs (`Actions.Action`); each
    list has a lemma saying when it goes through and which calls it then issues. A mesh's
    `Transformation` is kept as the view matrix it supplies. All meshes of a model share one
    context: the `Valid` predicates tie each mesh's shaders and textures to the mesh's context. */
module Meshes {
  import opened Values
  import opened GL
  import opened Shaders
  import opened Textures
  import opened Uniforms
  import opened Actions
  import opened Drawing
  import opened MeshTables
  import opened VertexLayout
  import opened Cameras

  /** `Path.Combine(Directory.GetCurrentDirectory(), "Assets", name)`. */
  function AssetPath(disk: Disk, name: string): string {
    Combine(Combine(disk.cwd, "Assets"), name)
  }

  // ---------------------------------------------------------------- BaseMesh

  const ModelMatrixUniform := "uModelMatrix"

  /** `BaseMesh.ApplyTransformationIfNeeded` as steps: nothing without a transformation;
      otherwise a presence check of `uModelMatrix` that throws naming the mesh type, then the
      write of the transformation's matrix. */
  function TransformActions(p: Handle, transformation: Option<Mat4>, meshType: string): seq<Action> {
    match transformation
    case None => []
    case Some(m) =>
      [Require(p, ModelMatrixUniform, InvalidOperation(TransformationUniformMissing(meshType))),
       Set(p, Write(ModelMatrixUniform, MatrixUniform(m)))]
  }

  /** The calls `TransformActions` issues when it goes through. */
  function TransformCalls(s: GLData, p: Handle, transformation: Option<Mat4>): seq<Call> {
    match transformation
    case None => []
    case Some(m) =>
      [Lookup(p, ModelMatrixUniform), Lookup(p, ModelMatrixUniform), Prog(Uniform(Loc(s, p, ModelMatrixUniform), MatrixUniform(m)))]
  }

  /** Without a transformation nothing is queried or written; with one and no `uModelMatrix`,
      the check throws naming the mesh type after one query and writes nothing; otherwise the
      matrix is written exactly once, after the check. */
  lemma TransformOutcome(s: GLData, p: Handle, transformation: Option<Mat4>, meshType: string)
    ensures var r := Run(Start(s), TransformActions(p, transformation, meshType));
            && (transformation.None? ==> r == Start(s))
            && (transformation.Some? && Loc(s, p, ModelMatrixUniform) == -1 ==>
                  r == Issued(s, [Lookup(p, ModelMatrixUniform)], Failure(InvalidOperation(TransformationUniformMissing(meshType)))))
            && (transformation.Some? && Loc(s, p, ModelMatrixUniform) != -1 ==>
                  var loc := Loc(s, p, ModelMatrixUniform);
                  r == Issued(ProgramStep(s, Uniform(loc, MatrixUniform(transformation.value))),
                              TransformCalls(s, p, transformation), Success(())))
  {
    var acts := TransformActions(p, transformation, meshType);
    if transformation.Some? {
      Extended(Start(s), [], acts[0]);
      Extended(Start(s), [acts[0]], acts[1]);
      assert [] + [acts[0]] == [acts[0]];
      assert [acts[0]] + [acts[1]] == acts;
    }
  }

  /** The same list seen through `RunOutcome`: it goes through exactly when `uModelMatrix`
      resolves or nothing is to be written, and then issues `TransformCalls`. */
  lemma TransformResolves(s: GLData, p: Handle, transformation: Option<Mat4>, meshType: string)
    ensures var acts := TransformActions(p, transformation, meshType);
            && AllHarmless(acts)
            && (AllResolve(s, acts) <==> transformation.Some? ==> Loc(s, p, ModelMatrixUniform) != -1)
            && Expected(s, acts) == TransformCalls(s, p, transformation)
  {
    var acts := TransformActions(p, transformation, meshType);
    if transformation.Some? {
      assert [acts[0]] + [acts[1]] == acts;
      ExpectedAppend(s, [acts[0]], [acts[1]]);
      ExpectedOne(s, acts[0]);
      ExpectedOne(s, acts[1]);
      assert Resolves(s, acts[0]) <==> Loc(s, p, ModelMatrixUniform) != -1;
    }
  }

  /** `ApplyTransformationIfNeeded()` as the next steps of a drawing method: the mesh passes its
      shaders, its transformation and its type name. */
  method ApplyTransformationIfNeeded(shaders: ShaderProgram, transformation: Option<Mat4>, meshType: string,
                                     ghost d: Issued<()>, ghost t0: seq<Call>, ghost acts: seq<Action>) returns (o: Outcome)
    requires shaders.gl.Valid() && Run(d, acts).result.Success? && At(shaders.gl, d, t0, acts)
    modifies shaders.gl
    ensures shaders.gl.Valid()
    ensures var done := acts + TransformActions(shaders.handle, transformation, meshType);
            At(shaders.gl, d, t0, done) && o == Reported(Run(d, done).result)
  {
    if transformation.None? {
      assert acts + [] == acts;
      return Pass;
    }
    var check := Require(shaders.handle, ModelMatrixUniform, InvalidOperation(TransformationUniformMissing(meshType)));
    var write := Write(ModelMatrixUniform, MatrixUniform(transformation.value));
    assert acts + [check] + [Set(shaders.handle, write)] == acts + TransformActions(shaders.handle, transformation, meshType);
    o := StepRequire(shaders, ModelMatrixUniform, InvalidOperation(TransformationUniformMissing(meshType)), d, t0, acts);
    if o.Fail? {
      StoppedAt(d, acts + [check], [Set(shaders.handle, write)]);
      return;
    }
    o := StepSet(shaders, write, d, t0, acts + [check]);
  }

  // ---------------------------------------------------------------- binding textures

  /** The state after `Bind(unit)` of texture `h`. */
  function TextureBound(s: GLData, h: Handle, unit: nat): GLData {
    TextureStep(TextureStep(s, ActiveTexture(unit)), BindTexture(h))
  }

  /** Unless the driver refuses them, the two calls of `Bind(unit)` leave `unit` active with `h`
      bound on it and every other unit as it was. */
  lemma BoundEffect(s: GLData, h: Handle, unit: nat)
    requires Tex(ActiveTexture(unit)) !in s.driver.rejects && Tex(BindTexture(h)) !in s.driver.rejects
    ensures TextureBound(s, h, unit).tex == s.tex.(activeUnit := unit, units := s.tex.units[unit := h])
    ensures TextureBound(s, h, unit) == s.(tex := TextureBound(s, h, unit).tex)
  {
  }

  /** `Bind(unit)` as the next steps of a run that has not failed. */
  lemma BindRun(d: Issued<()>, h: Handle, unit: nat)
    requires d.result.Success?
    ensures Run(d, BindActions(h, unit)) == Issued(TextureBound(d.state, h, unit), d.calls + BindCalls(h, unit), d.result)
  {
    var a0, a1 := Issue(Tex(ActiveTexture(unit))), Issue(Tex(BindTexture(h)));
    Extended(d, [], a0);
    assert [] + [a0] == [a0];
    Extended(d, [a0], a1);
    assert [a0] + [a1] == BindActions(h, unit);
    assert d.calls + [a0.call] + [a1.call] == d.calls + BindCalls(h, unit);
    match d.result.value { case () => }
  }

  /** A list of plain calls goes through and issues exactly those calls. */
  lemma CallsOnly(s: GLData, acts: seq<Action>, calls: seq<Call>)
    requires |acts| == |calls| && forall i :: 0 <= i < |acts| ==> acts[i] == Issue(calls[i])
    ensures AllResolve(s, acts) && Expected(s, acts) == calls
    decreases |acts|
  {
    if acts != [] {
      CallsOnly(s, acts[..|acts| - 1], calls[..|calls| - 1]);
      assert calls == calls[..|calls| - 1] + [calls[|calls| - 1]];
    }
  }

  // ---------------------------------------------------------------- DataMesh

  /** `DataMesh`: a mesh over given attributes and vertices, with an optional texture. */
  class DataMesh {
    const gl: GLState
    const texture: Simple2DTexture?
    const attributes: seq<Descriptor>
    const vertices: seq<real>

    ghost predicate Valid()
      reads this, gl
    {
      gl.Valid() && (texture != null ==> texture.gl == gl)
    }

    /** `Indices`: always empty. */
    function Indices(): seq<nat> {
      []
    }

    constructor Wrap(gl: GLState, attributes: seq<Descriptor>, vertices: seq<real>, texture: Simple2DTexture?)
      ensures this.gl == gl && this.attributes == attributes && this.vertices == vertices && this.texture == texture
    {
      this.gl := gl;
      this.texture := texture;
      this.attributes := attributes;
      this.vertices := vertices;
    }

    /** `new DataMesh(gl, attributes, vertices, texture)`: a null context throws. */
    static method New(gl: GLState?, attributes: seq<Descriptor>, vertices: seq<real>, texture: Simple2DTexture?) returns (r: Result<DataMesh>)
      ensures r.Failure? <==> gl == null
      ensures r.Failure? ==> r.error == ArgumentNull("gl")
      ensures r.Success? ==> fresh(r.value) && r.value.gl == gl && r.value.attributes == attributes
                             && r.value.vertices == vertices && r.value.texture == texture
    {
      if gl == null {
        return Failure(ArgumentNull("gl"));
      }
      var mesh := new DataMesh.Wrap(gl, attributes, vertices, texture);
      return Success(mesh);
    }

    /** The steps of `Draw()`: bind the texture on unit 0 when there is one, then draw the
        arrays from 0 with as many vertices as the mesh has floats. */
    function DrawActions(): seq<Action>
      reads this
    {
      (if texture != null then BindActions(texture.handle, 0) else []) + [Issue(DrawArrays(0, |vertices|))]
    }

    method Draw()
      requires Valid()
      modifies gl
      ensures Valid()
      ensures Run(Start(old(gl.state)), DrawActions()).result.Success?
      ensures At(gl, Start(old(gl.state)), old(gl.trace), DrawActions())
    {
      ghost var d, t0 := Start(gl.state), gl.trace;
      assert t0 + d.calls == t0;
      ghost var bind: seq<Action> := [];
      if texture != null {
        StepBind(texture, 0, d, t0, []);
        bind := BindActions(texture.handle, 0);
        assert [] + bind == bind;
      }
      StepDraw(gl, DrawArrays(0, |vertices|), d, t0, bind);
    }

    /** `Dispose()`: releases the texture when there is one, and nothing else. */
    method Dispose()
      requires Valid()
      modifies gl
      ensures Valid()
      ensures texture == null ==> gl.state == old(gl.state) && gl.trace == old(gl.trace)
      ensures texture != null ==>
                && gl.state == TextureStep(old(gl.state), DeleteTexture(texture.handle))
                && gl.trace == old(gl.trace) + [Tex(DeleteTexture(texture.handle))]
    {
      if texture != null {
        texture.Dispose();
      }
    }
  }

  /** A DataMesh draw always goes through: the texture binding, if any, then one DrawArrays
      whose count is the number of floats. */
  lemma DataMeshDraws(s: GLData, texture: Option<Handle>, vertices: seq<real>)
    ensures var acts := (if texture.Some? then BindActions(texture.value, 0) else []) + [Issue(DrawArrays(0, |vertices|))];
            var r := Run(Start(s), acts);
            && r.result.Success?
            && r.calls == (if texture.Some? then BindCalls(texture.value, 0) else []) + [DrawArrays(0, |vertices|)]
  {
    var calls := (if texture.Some? then BindCalls(texture.value, 0) else []) + [DrawArrays(0, |vertices|)];
    var acts := (if texture.Some? then BindActions(texture.value, 0) else []) + [Issue(DrawArrays(0, |vertices|))];
    CallsOnly(s, acts, calls);
    RunOutcome(s, acts);
  }

  // ---------------------------------------------------------------- QuadWithColorData

  const ColorQuadVertexShader := "IdentityWithColor.vert"
  const ColorQuadFragmentShader := "ArgumentColor.frag"

  /** The steps of `QuadWithColorData.Draw`: use the program, apply the transformation, write
      `uBlue`, then draw the six indices. */
  function ColorQuadDraw(p: Handle, transformation: Option<Mat4>, blue: real): seq<Action> {
    [Issue(Prog(UseProgram(p)))] + TransformActions(p, transformation, "QuadWithColorData")
    + [Set(p, Write("uBlue", FloatUniform(blue))), Issue(DrawElements(|ColorQuadIndices()|))]
  }

  /** `QuadWithColorData`: a colored quad drawn with its own program. */
  class QuadWithColorData {
    const gl: GLState
    const shaders: ShaderProgram
    var transformation: Option<Mat4>

    ghost predicate Valid()
      reads this, gl
    {
      gl.Valid() && shaders.gl == gl
    }

    constructor Wrap(shaders: ShaderProgram)
      ensures gl == shaders.gl && this.shaders == shaders && transformation.None?
    {
      gl := shaders.gl;
      this.shaders := shaders;
      transformation := None;
    }

    /** `new QuadWithColorData(gl)`: builds its program. */
    static method New(gl: GLState, disk: Disk) returns (r: Result<QuadWithColorData>)
      requires gl.Valid()
      modifies gl
      ensures gl.Valid()
      ensures var b := Build(old(gl.state), disk, ColorQuadVertexShader, ColorQuadFragmentShader);
              && gl.state == b.state && gl.trace == old(gl.trace) + b.calls
              && (r.Failure? <==> b.result.Failure?)
              && (r.Failure? ==> r.error == b.result.error)
              && (r.Success? ==> fresh(r.value) && r.value.Valid() && r.value.gl == gl
                                 && r.value.shaders.handle == b.result.value && r.value.transformation.None?)
    {
      var built := ShaderProgram.New(gl, disk, ColorQuadVertexShader, ColorQuadFragmentShader);
      if built.Failure? {
        return Failure(built.error);
      }
      var quad := new QuadWithColorData.Wrap(built.value);
      return Success(quad);
    }

    /** `Draw(deltaTime, absoluteTime)`: `blue` is the clock-driven value written to `uBlue`. */
    method Draw(blue: real) returns (o: Outcome)
      requires Valid()
      modifies gl
      ensures Valid()
      ensures var acts := ColorQuadDraw(shaders.handle, transformation, blue);
              At(gl, Start(old(gl.state)), old(gl.trace), acts) && o == Reported(Run(Start(old(gl.state)), acts).result)
    {
      ghost var d, t0, p := Start(gl.state), gl.trace, shaders.handle;
      assert t0 + d.calls == t0;
      var use := Issue(Prog(UseProgram(p)));
      var blueWrite := Write("uBlue", FloatUniform(blue));
      var draw := DrawElements(|ColorQuadIndices()|);
      StepUse(shaders, d, t0, []);
      assert [] + [use] == [use];
      o := ApplyTransformationIfNeeded(shaders, transformation, "QuadWithColorData", d, t0, [use]);
      ghost var a2 := [use] + TransformActions(p, transformation, "QuadWithColorData");
      assert a2 + [Set(p, blueWrite), Issue(draw)] == ColorQuadDraw(p, transformation, blue);
      assert a2 + [Set(p, blueWrite)] + [Issue(draw)] == ColorQuadDraw(p, transformation, blue);
      if o.Fail? {
        StoppedAt(d, a2, [Set(p, blueWrite), Issue(draw)]);
        return;
      }
      o := StepSet(shaders, blueWrite, d, t0, a2);
      if o.Fail? {
        StoppedAt(d, a2 + [Set(p, blueWrite)], [Issue(draw)]);
        return;
      }
      StepDraw(gl, draw, d, t0, a2 + [Set(p, blueWrite)]);
    }

    method Dispose()
      requires Valid()
      modifies gl
      ensures Valid()
      ensures gl.trace == old(gl.trace) + [Prog(DeleteProgram(shaders.handle))]
      ensures gl.state == ProgramStep(old(gl.state), DeleteProgram(shaders.handle))
    {
      shaders.Dispose();
    }
  }

  /** The quad's draw list is made of harmless calls and goes through exactly when `uBlue`
      resolves and, with a transformation, `uModelMatrix` does. */
  lemma ColorQuadDrawResolves(s: GLData, p: Handle, transformation: Option<Mat4>, blue: real)
    ensures var acts := ColorQuadDraw(p, transformation, blue);
            && AllHarmless(acts) && NoDraws(acts[..|acts| - 1])
            && (AllResolve(s, acts) <==> Loc(s, p, "uBlue") != -1 && (transformation.Some? ==> Loc(s, p, ModelMatrixUniform) != -1))
  {
    var use := [Issue(Prog(UseProgram(p)))];
    var t := TransformActions(p, transformation, "QuadWithColorData");
    var tail := [Set(p, Write("uBlue", FloatUniform(blue))), Issue(DrawElements(6))];
    var acts := use + t + tail;
    assert acts == ColorQuadDraw(p, transformation, blue);
    TransformResolves(s, p, transformation, "QuadWithColorData");
    AllResolveAppend(s, use, t);
    AllResolveAppend(s, use + t, tail);
    assert AllResolve(s, tail) <==> Loc(s, p, "uBlue") != -1 by {
      assert Resolves(s, tail[0]) <==> Loc(s, p, "uBlue") != -1;
      assert Resolves(s, tail[1]);
    }
    assert AllResolve(s, use) by {
      assert Resolves(s, use[0]);
    }
    assert AllHarmless(acts) by {
      forall i | 0 <= i < |acts| && acts[i].Issue? ensures Harmless(acts[i].call) {
        if i >= |use| + |t| {
          assert acts[i] == tail[i - |use| - |t|];
        }
      }
    }
    assert acts[..|acts| - 1] == use + t + [tail[0]];
  }

  /** The calls of the quad's draw list, step by step. */
  lemma ColorQuadDrawCalls(s: GLData, p: Handle, transformation: Option<Mat4>, blue: real)
    ensures Expected(s, ColorQuadDraw(p, transformation, blue))
            == [Prog(UseProgram(p))] + TransformCalls(s, p, transformation)
               + [Lookup(p, "uBlue"), Prog(Uniform(Loc(s, p, "uBlue"), FloatUniform(blue))), DrawElements(6)]
  {
    var use := [Issue(Prog(UseProgram(p)))];
    var t := TransformActions(p, transformation, "QuadWithColorData");
    var tail := [Set(p, Write("uBlue", FloatUniform(blue))), Issue(DrawElements(6))];
    assert use + t + tail == ColorQuadDraw(p, transformation, blue);
    TransformResolves(s, p, transformation, "QuadWithColorData");
    ExpectedAppend(s, use, t);
    ExpectedAppend(s, use + t, tail);
    ExpectedOne(s, use[0]);
    assert tail == [tail[0]] + [tail[1]];
    ExpectedAppend(s, [tail[0]], [tail[1]]);
    ExpectedOne(s, tail[0]);
    ExpectedOne(s, tail[1]);
  }

  /** When it goes through, the quad's draw issues Use, the transformation's calls, the `uBlue`
      lookup and write, and a six-index DrawElements. */
  lemma ColorQuadDrawSucceeds(s: GLData, p: Handle, transformation: Option<Mat4>, blue: real)
    ensures var r := Run(Start(s), ColorQuadDraw(p, transformation, blue));
            && (r.result.Success? <==> Loc(s, p, "uBlue") != -1 && (transformation.Some? ==> Loc(s, p, ModelMatrixUniform) != -1))
            && (r.result.Success? ==>
                  r.calls == [Prog(UseProgram(p))] + TransformCalls(s, p, transformation)
                             + [Lookup(p, "uBlue"), Prog(Uniform(Loc(s, p, "uBlue"), FloatUniform(blue))), DrawElements(6)])
  {
    ColorQuadDrawResolves(s, p, transformation, blue);
    RunOutcome(s, ColorQuadDraw(p, transformation, blue));
    ColorQuadDrawCalls(s, p, transformation, blue);
  }

  /** A failed quad draw throws for the first missing uniform, `uModelMatrix` before `uBlue`,
      and issues no draw call. */
  lemma ColorQuadDrawFails(s: GLData, p: Handle, transformation: Option<Mat4>, blue: real)
    requires Run(Start(s), ColorQuadDraw(p, transformation, blue)).result.Failure?
    ensures var r := Run(Start(s), ColorQuadDraw(p, transformation, blue));
            && r.result.error == (if transformation.Some? && Loc(s, p, ModelMatrixUniform) == -1
                                  then InvalidOperation(TransformationUniformMissing("QuadWithColorData"))
                                  else InvalidOperation(UniformMissing("uBlue")))
            && forall c :: c in r.calls ==> !IsDraw(c)
  {
    var acts := ColorQuadDraw(p, transformation, blue);
    ColorQuadDrawResolves(s, p, transformation, blue);
    FailedDrawsNothing(s, acts);
    var i := RunFails(s, acts);
    if transformation.Some? && Loc(s, p, ModelMatrixUniform) == -1 {
      assert !Resolves(s, acts[1]);
      assert i == 1;
    } else {
      assert forall j :: 0 <= j < |acts| - 2 ==> Resolves(s, acts[j]);
      assert i == |acts| - 2;
    }
  }
}
