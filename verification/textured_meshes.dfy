/** The textured meshes (Meshes/): `QuadWithTextureCoordinates`, `CubeWithTextureData` and
    `CubeWithNormalsAndUV`. Each loads its textures from the working directory's `Assets`
    folder; the first two also build their own program. */
module TexturedMeshes {
  import opened Values
  import opened GL
  import opened Shaders
  import opened Textures
  import opened Uniforms
  import opened Actions
  import opened Drawing
  import opened MeshTables
  import opened Cameras
  import opened Meshes

  /** Prepends one step to a list's calls. */
  lemma ExpectedCons(s: GLData, a: Action, rest: seq<Action>)
    ensures Expected(s, [a] + rest) == ActionCalls(s, a) + Expected(s, rest)
  {
    ExpectedAppend(s, [a], rest);
    ExpectedOne(s, a);
  }

  // ---------------------------------------------------------------- QuadWithTextureCoordinates

  /** `new Simple2DTexture(gl, Path.Combine(cwd, "Assets", name))`: an image file of the
      `Assets` folder loaded as a texture, or the error that stopped it. */
  method LoadAsset(gl: GLState, disk: Disk, name: string) returns (r: Result<Simple2DTexture>)
    requires gl.Valid()
    modifies gl
    ensures gl.Valid()
    ensures r.Success? <==> FileLoads(old(gl.state), disk, AssetPath(disk, name))
    ensures r.Failure? ==> r.error == FileError(disk, AssetPath(disk, name))
    ensures gl.state == FileTried(old(gl.state), disk, AssetPath(disk, name))
    ensures gl.trace == old(gl.trace) + FileTriedCalls(old(gl.state), disk, AssetPath(disk, name))
    ensures r.Success? ==> && fresh(r.value) && r.value.gl == gl && r.value.handle == old(gl.state).next
                           && r.value.filePath == Some(AssetPath(disk, name))
                           && gl.state == FileLoaded(old(gl.state), disk, AssetPath(disk, name))
                           && gl.trace == old(gl.trace) + FileLoadCalls(old(gl.state), disk, AssetPath(disk, name))
  {
    r := Simple2DTexture.FromFile(gl, disk, AssetPath(disk, name));
  }

  const TexturedQuadVertexShader := "TransformationWithUv.vert"
  const TexturedQuadFragmentShader := "BasicTextureWithAlphaDiscard.frag"
  const TexturedQuadImage := "silk.png"

  /** The steps of `PrepareForDrawing`: bind the texture on unit 0, use the program, point
      `uTexture` at unit 0, then apply the transformation. */
  function TexturedQuadPrepare(h: Handle, p: Handle, transformation: Option<Mat4>): seq<Action> {
    BindActions(h, 0) + [Issue(Prog(UseProgram(p))), Set(p, Write("uTexture", IntUniform(0)))]
    + TransformActions(p, transformation, "QuadWithTextureCoordinates")
  }

  /** `QuadWithTextureCoordinates`: a textured quad with its own program. Its layout is
      `TexturedQuadAttributesAsWritten`, whose UV attribute overreads the last vertex
      (`TexturedQuadOverflows`). */
  class QuadWithTextureCoordinates {
    const gl: GLState
    const shaders: ShaderProgram
    const texture: Simple2DTexture
    var transformation: Option<Mat4>

    ghost predicate Valid()
      reads this, gl
    {
      gl.Valid() && shaders.gl == gl && texture.gl == gl
    }

    constructor Wrap(shaders: ShaderProgram, texture: Simple2DTexture)
      ensures gl == shaders.gl && this.shaders == shaders && this.texture == texture && transformation.None?
    {
      gl := shaders.gl;
      this.shaders := shaders;
      this.texture := texture;
      transformation := None;
    }

    /** `new QuadWithTextureCoordinates(gl)`: builds the program, then loads `Assets/silk.png`;
        the first failure propagates. */
    static method New(gl: GLState, disk: Disk) returns (r: Result<QuadWithTextureCoordinates>)
      requires gl.Valid()
      modifies gl
      ensures gl.Valid()
      ensures var b := Build(old(gl.state), disk, TexturedQuadVertexShader, TexturedQuadFragmentShader);
              && (b.result.Failure? ==> r == Failure(b.result.error) && gl.state == b.state && gl.trace == old(gl.trace) + b.calls)
              && (r.Success? <==> b.result.Success? && FileLoads(b.state, disk, AssetPath(disk, TexturedQuadImage)))
              && (b.result.Success? && r.Failure? ==> r.error == FileError(disk, AssetPath(disk, TexturedQuadImage)))
              && (b.result.Success? ==>
                    && gl.state == FileTried(b.state, disk, AssetPath(disk, TexturedQuadImage))
                    && gl.trace == old(gl.trace) + b.calls + FileTriedCalls(b.state, disk, AssetPath(disk, TexturedQuadImage)))
              && (r.Success? ==>
                    && fresh(r.value) && r.value.Valid() && r.value.gl == gl && r.value.transformation.None?
                    && b.result.Success? && r.value.shaders.handle == b.result.value
                    && r.value.texture.handle == b.state.next && r.value.texture.filePath == Some(AssetPath(disk, TexturedQuadImage))
                    && gl.state == FileLoaded(b.state, disk, AssetPath(disk, TexturedQuadImage))
                    && gl.trace == old(gl.trace) + b.calls + FileLoadCalls(b.state, disk, AssetPath(disk, TexturedQuadImage)))
    {
      var built := ShaderProgram.New(gl, disk, TexturedQuadVertexShader, TexturedQuadFragmentShader);
      if built.Failure? {
        return Failure(built.error);
      }
      var loaded := LoadAsset(gl, disk, TexturedQuadImage);
      if loaded.Failure? {
        return Failure(loaded.error);
      }
      var quad := new QuadWithTextureCoordinates.Wrap(built.value, loaded.value);
      return Success(quad);
    }

    method PrepareForDrawing() returns (o: Outcome)
      requires Valid()
      modifies gl
      ensures Valid()
      ensures var acts := TexturedQuadPrepare(texture.handle, shaders.handle, transformation);
              At(gl, Start(old(gl.state)), old(gl.trace), acts) && o == Reported(Run(Start(old(gl.state)), acts).result)
    {
      ghost var d, t0, p := Start(gl.state), gl.trace, shaders.handle;
      assert t0 + d.calls == t0;
      var bind := BindActions(texture.handle, 0);
      var use := Issue(Prog(UseProgram(p)));
      var unit := Write("uTexture", IntUniform(0));
      StepBind(texture, 0, d, t0, []);
      assert [] + bind == bind;
      StepUse(shaders, d, t0, bind);
      o := StepSet(shaders, unit, d, t0, bind + [use]);
      ghost var done := bind + [use] + [Set(p, unit)];
      assert done + TransformActions(p, transformation, "QuadWithTextureCoordinates") == TexturedQuadPrepare(texture.handle, p, transformation);
      if o.Fail? {
        StoppedAt(d, done, TransformActions(p, transformation, "QuadWithTextureCoordinates"));
        return;
      }
      o := ApplyTransformationIfNeeded(shaders, transformation, "QuadWithTextureCoordinates", d, t0, done);
    }

    /** `Dispose()`: the program, then the texture. */
    method Dispose()
      requires Valid()
      modifies gl
      ensures Valid()
      ensures gl.trace == old(gl.trace) + [Prog(DeleteProgram(shaders.handle)), Tex(DeleteTexture(texture.handle))]
      ensures gl.state == TextureStep(ProgramStep(old(gl.state), DeleteProgram(shaders.handle)), DeleteTexture(texture.handle))
    {
      shaders.Dispose();
      texture.Dispose();
    }
  }

  /** The preparation is made of harmless calls, issues no draw call, and goes through exactly
      when `uTexture` resolves and, with a transformation, `uModelMatrix` does. */
  lemma TexturedQuadPrepareResolves(s: GLData, h: Handle, p: Handle, transformation: Option<Mat4>)
    ensures var acts := TexturedQuadPrepare(h, p, transformation);
            && AllHarmless(acts) && NoDraws(acts)
            && (AllResolve(s, acts) <==> Loc(s, p, "uTexture") != -1 && (transformation.Some? ==> Loc(s, p, ModelMatrixUniform) != -1))
  {
    var head := BindActions(h, 0) + [Issue(Prog(UseProgram(p))), Set(p, Write("uTexture", IntUniform(0)))];
    var t := TransformActions(p, transformation, "QuadWithTextureCoordinates");
    var acts := head + t;
    TransformResolves(s, p, transformation, "QuadWithTextureCoordinates");
    AllResolveAppend(s, head, t);
    assert AllResolve(s, head) <==> Loc(s, p, "uTexture") != -1 by {
      assert Resolves(s, head[0]) && Resolves(s, head[1]) && Resolves(s, head[2]);
      assert Resolves(s, head[3]) <==> Loc(s, p, "uTexture") != -1;
    }
    forall i | 0 <= i < |acts|
      ensures acts[i].Issue? ==> Harmless(acts[i].call) && !IsDraw(acts[i].call)
    {
      if i >= |head| {
        assert acts[i] == t[i - |head|];
      }
    }
  }

  /** The calls the preparation issues when every step goes through: the texture binding, Use,
      the `uTexture` lookup and write of unit 0, then the transformation's calls. */
  lemma TexturedQuadPrepareCalls(s: GLData, h: Handle, p: Handle, transformation: Option<Mat4>)
    ensures Expected(s, TexturedQuadPrepare(h, p, transformation))
            == BindCalls(h, 0) + [Prog(UseProgram(p)), Lookup(p, "uTexture"), Prog(Uniform(Loc(s, p, "uTexture"), IntUniform(0)))]
               + TransformCalls(s, p, transformation)
  {
    var head := BindActions(h, 0) + [Issue(Prog(UseProgram(p)))];
    var unitWrite := Set(p, Write("uTexture", IntUniform(0)));
    var headCalls := BindCalls(h, 0) + [Prog(UseProgram(p))];
    var unitCalls := [Lookup(p, "uTexture"), Prog(Uniform(Loc(s, p, "uTexture"), IntUniform(0)))];
    assert TexturedQuadPrepare(h, p, transformation) == head + [unitWrite] + TransformActions(p, transformation, "QuadWithTextureCoordinates");
    ExpectedAround(s, head, unitWrite, TransformActions(p, transformation, "QuadWithTextureCoordinates"));
    CallsOnly(s, head, headCalls);
    TransformResolves(s, p, transformation, "QuadWithTextureCoordinates");
    assert headCalls + unitCalls == BindCalls(h, 0) + [Prog(UseProgram(p)), Lookup(p, "uTexture"), Prog(Uniform(Loc(s, p, "uTexture"), IntUniform(0)))];
  }

  /** A preparation that goes through found its uniforms and issued `TexturedQuadPrepareCalls`. */
  lemma TexturedQuadPrepareSucceeds(s: GLData, h: Handle, p: Handle, transformation: Option<Mat4>)
    requires Run(Start(s), TexturedQuadPrepare(h, p, transformation)).result.Success?
    ensures Loc(s, p, "uTexture") != -1 && (transformation.Some? ==> Loc(s, p, ModelMatrixUniform) != -1)
    ensures Run(Start(s), TexturedQuadPrepare(h, p, transformation)).calls
            == BindCalls(h, 0) + [Prog(UseProgram(p)), Lookup(p, "uTexture"), Prog(Uniform(Loc(s, p, "uTexture"), IntUniform(0)))]
               + TransformCalls(s, p, transformation)
  {
    TexturedQuadPrepareResolves(s, h, p, transformation);
    RunOutcome(s, TexturedQuadPrepare(h, p, transformation));
    TexturedQuadPrepareCalls(s, h, p, transformation);
  }

  /** A failed preparation throws for the first missing uniform, `uTexture` before
      `uModelMatrix`. */
  lemma TexturedQuadPrepareFails(s: GLData, h: Handle, p: Handle, transformation: Option<Mat4>)
    requires Run(Start(s), TexturedQuadPrepare(h, p, transformation)).result.Failure?
    ensures Run(Start(s), TexturedQuadPrepare(h, p, transformation)).result.error
            == if Loc(s, p, "uTexture") == -1 then InvalidOperation(UniformMissing("uTexture"))
               else InvalidOperation(TransformationUniformMissing("QuadWithTextureCoordinates"))
  {
    var acts := TexturedQuadPrepare(h, p, transformation);
    TexturedQuadPrepareResolves(s, h, p, transformation);
    var i := RunFails(s, acts);
    assert Resolves(s, acts[0]) && Resolves(s, acts[1]) && Resolves(s, acts[2]);
    if Loc(s, p, "uTexture") == -1 {
      assert !Resolves(s, acts[3]);
      assert i == 3;
    } else {
      assert i == 4;
    }
  }

  // ---------------------------------------------------------------- CubeWithTextureData

  const TexturedCubeVertexShader := "IdentityWithMVPAndUv.vert"
  const TexturedCubeFragmentShader := "BasicTextureWithAlphaDiscard.frag"
  const TexturedCubeImage := "wooden_crate.jpg"

  /** The uniform writes of the cube's draw, in order: unit 0 for `uTexture`, the rotation for
      `uModel`, then the camera's view and projection. */
  function TexturedCubeWrites(absoluteTime: real, view: Mat4, projection: Mat4): seq<Write> {
    [Write("uTexture", IntUniform(0)), Write("uModel", MatrixUniform(RotationXY(absoluteTime))),
     Write("uView", MatrixUniform(view)), Write("uProjection", MatrixUniform(projection))]
  }

  /** The steps of `CubeWithTextureData.Draw`: bind the texture on unit 0, use the program,
      make the four writes, then draw 36 vertices from 0. The transformation is not applied. */
  function TexturedCubeDraw(h: Handle, p: Handle, absoluteTime: real, view: Mat4, projection: Mat4): seq<Action> {
    BindActions(h, 0) + [Issue(Prog(UseProgram(p)))] + Sets(p, TexturedCubeWrites(absoluteTime, view, projection))
    + [Issue(DrawArrays(0, 36))]
  }

  /** `CubeWithTextureData`: a textured cube drawn with its own program and the camera's
      matrices. */
  class CubeWithTextureData {
    const gl: GLState
    const camera: Camera
    const shaders: ShaderProgram
    const texture: Simple2DTexture
    var transformation: Option<Mat4>

    ghost predicate Valid()
      reads this, gl
    {
      gl.Valid() && shaders.gl == gl && texture.gl == gl
    }

    constructor Wrap(camera: Camera, shaders: ShaderProgram, texture: Simple2DTexture)
      ensures gl == shaders.gl && this.camera == camera && this.shaders == shaders && this.texture == texture
      ensures transformation.None?
    {
      gl := shaders.gl;
      this.camera := camera;
      this.shaders := shaders;
      this.texture := texture;
      transformation := None;
    }

    /** `new CubeWithTextureData(gl, camera)`: builds the program, then loads
        `Assets/wooden_crate.jpg`; the first failure propagates. */
    static method New(gl: GLState, camera: Camera, disk: Disk) returns (r: Result<CubeWithTextureData>)
      requires gl.Valid()
      modifies gl
      ensures gl.Valid()
      ensures var b := Build(old(gl.state), disk, TexturedCubeVertexShader, TexturedCubeFragmentShader);
              && (b.result.Failure? ==> r == Failure(b.result.error) && gl.state == b.state && gl.trace == old(gl.trace) + b.calls)
              && (r.Success? <==> b.result.Success? && FileLoads(b.state, disk, AssetPath(disk, TexturedCubeImage)))
              && (b.result.Success? && r.Failure? ==> r.error == FileError(disk, AssetPath(disk, TexturedCubeImage)))
              && (b.result.Success? ==>
                    && gl.state == FileTried(b.state, disk, AssetPath(disk, TexturedCubeImage))
                    && gl.trace == old(gl.trace) + b.calls + FileTriedCalls(b.state, disk, AssetPath(disk, TexturedCubeImage)))
              && (r.Success? ==>
                    && fresh(r.value) && r.value.Valid() && r.value.gl == gl && r.value.camera == camera
                    && b.result.Success? && r.value.shaders.handle == b.result.value
                    && r.value.texture.handle == b.state.next && r.value.texture.filePath == Some(AssetPath(disk, TexturedCubeImage))
                    && gl.state == FileLoaded(b.state, disk, AssetPath(disk, TexturedCubeImage))
                    && gl.trace == old(gl.trace) + b.calls + FileLoadCalls(b.state, disk, AssetPath(disk, TexturedCubeImage)))
    {
      var built := ShaderProgram.New(gl, disk, TexturedCubeVertexShader, TexturedCubeFragmentShader);
      if built.Failure? {
        return Failure(built.error);
      }
      var loaded := LoadAsset(gl, disk, TexturedCubeImage);
      if loaded.Failure? {
        return Failure(loaded.error);
      }
      var cube := new CubeWithTextureData.Wrap(camera, built.value, loaded.value);
      return Success(cube);
    }

    /** `Draw(deltaTime, absoluteTime)`. */
    method Draw(absoluteTime: real) returns (o: Outcome)
      requires Valid()
      modifies gl
      ensures Valid()
      ensures var acts := TexturedCubeDraw(texture.handle, shaders.handle, absoluteTime, camera.ViewMatrix(), camera.ProjectionMatrix());
              At(gl, Start(old(gl.state)), old(gl.trace), acts) && o == Reported(Run(Start(old(gl.state)), acts).result)
    {
      ghost var d, t0, p := Start(gl.state), gl.trace, shaders.handle;
      assert t0 + d.calls == t0;
      var ws := TexturedCubeWrites(absoluteTime, camera.ViewMatrix(), camera.ProjectionMatrix());
      var draw := DrawArrays(0, 36);
      ghost var bind := BindActions(texture.handle, 0);
      ghost var prefix := bind + [Issue(Prog(UseProgram(p)))];
      StepBind(texture, 0, d, t0, []);
      assert [] + bind == bind;
      StepUse(shaders, d, t0, bind);
      o := StepWrites(shaders, ws, d, t0, prefix);
      if o.Fail? {
        StoppedAt(d, prefix + Sets(p, ws), [Issue(draw)]);
        return;
      }
      StepDraw(gl, draw, d, t0, prefix + Sets(p, ws));
    }

    /** `Dispose()`: the program, then the texture. */
    method Dispose()
      requires Valid()
      modifies gl
      ensures Valid()
      ensures gl.trace == old(gl.trace) + [Prog(DeleteProgram(shaders.handle)), Tex(DeleteTexture(texture.handle))]
      ensures gl.state == TextureStep(ProgramStep(old(gl.state), DeleteProgram(shaders.handle)), DeleteTexture(texture.handle))
    {
      shaders.Dispose();
      texture.Dispose();
    }
  }

  /** The cube's draw list is made of harmless calls, draws only at its end, and goes through
      exactly when all four uniforms resolve. */
  lemma TexturedCubeDrawResolves(s: GLData, h: Handle, p: Handle, absoluteTime: real, view: Mat4, projection: Mat4)
    ensures var acts := TexturedCubeDraw(h, p, absoluteTime, view, projection);
            var ws := TexturedCubeWrites(absoluteTime, view, projection);
            && AllHarmless(acts) && NoDraws(acts[..|acts| - 1])
            && (AllResolve(s, acts) <==> forall k :: 0 <= k < |ws| ==> Loc(s, p, ws[k].name) != -1)
  {
    var acts := TexturedCubeDraw(h, p, absoluteTime, view, projection);
    var ws := TexturedCubeWrites(absoluteTime, view, projection);
    assert forall i :: 3 <= i < 7 ==> acts[i] == Set(p, ws[i - 3]);
    assert forall i :: 0 <= i < 8 ==> (acts[i].Issue? <==> i < 3 || i == 7);
    if forall k :: 0 <= k < |ws| ==> Loc(s, p, ws[k].name) != -1 {
      forall i | 0 <= i < |acts| ensures Resolves(s, acts[i]) {
        if 3 <= i < 7 {
          assert Loc(s, p, ws[i - 3].name) != -1;
        }
      }
    }
    if AllResolve(s, acts) {
      forall k | 0 <= k < |ws| ensures Loc(s, p, ws[k].name) != -1 {
        assert Resolves(s, acts[k + 3]);
      }
    }
  }

  /** The calls of the cube's draw when every step goes through: the binding and Use, then a
      lookup and a write for each of its four uniforms in order (`SetsExpected`), then
      DrawArrays(0, 36). */
  lemma TexturedCubeDrawCalls(s: GLData, h: Handle, p: Handle, absoluteTime: real, view: Mat4, projection: Mat4)
    ensures Expected(s, TexturedCubeDraw(h, p, absoluteTime, view, projection))
            == BindCalls(h, 0) + [Prog(UseProgram(p))] + Expected(s, Sets(p, TexturedCubeWrites(absoluteTime, view, projection))) + [DrawArrays(0, 36)]
  {
    var ws := TexturedCubeWrites(absoluteTime, view, projection);
    var head := BindActions(h, 0) + [Issue(Prog(UseProgram(p)))];
    var tail := [Issue(DrawArrays(0, 36))];
    ExpectedAppend(s, head + Sets(p, ws), tail);
    ExpectedAppend(s, head, Sets(p, ws));
    ExpectedOne(s, tail[0]);
    CallsOnly(s, head, BindCalls(h, 0) + [Prog(UseProgram(p))]);
  }

  /** A cube draw that goes through found all four uniforms and issued `TexturedCubeDrawCalls`. */
  lemma TexturedCubeDrawSucceeds(s: GLData, h: Handle, p: Handle, absoluteTime: real, view: Mat4, projection: Mat4)
    requires Run(Start(s), TexturedCubeDraw(h, p, absoluteTime, view, projection)).result.Success?
    ensures var ws := TexturedCubeWrites(absoluteTime, view, projection);
            forall k :: 0 <= k < |ws| ==> Loc(s, p, ws[k].name) != -1
    ensures Run(Start(s), TexturedCubeDraw(h, p, absoluteTime, view, projection)).calls
            == BindCalls(h, 0) + [Prog(UseProgram(p))] + Expected(s, Sets(p, TexturedCubeWrites(absoluteTime, view, projection))) + [DrawArrays(0, 36)]
  {
    TexturedCubeDrawResolves(s, h, p, absoluteTime, view, projection);
    RunOutcome(s, TexturedCubeDraw(h, p, absoluteTime, view, projection));
    TexturedCubeDrawCalls(s, h, p, absoluteTime, view, projection);
  }

  /** A failed cube draw throws naming the first of its four uniforms that is missing, and
      issues no draw call. */
  lemma TexturedCubeDrawFails(s: GLData, h: Handle, p: Handle, absoluteTime: real, view: Mat4, projection: Mat4) returns (j: nat)
    requires Run(Start(s), TexturedCubeDraw(h, p, absoluteTime, view, projection)).result.Failure?
    ensures var ws := TexturedCubeWrites(absoluteTime, view, projection);
            && j < |ws| && Loc(s, p, ws[j].name) == -1
            && (forall k :: 0 <= k < j ==> Loc(s, p, ws[k].name) != -1)
    ensures var r := Run(Start(s), TexturedCubeDraw(h, p, absoluteTime, view, projection));
            && r.result.error == InvalidOperation(UniformMissing(TexturedCubeWrites(absoluteTime, view, projection)[j].name))
            && forall c :: c in r.calls ==> !IsDraw(c)
  {
    var acts := TexturedCubeDraw(h, p, absoluteTime, view, projection);
    var ws := TexturedCubeWrites(absoluteTime, view, projection);
    TexturedCubeDrawResolves(s, h, p, absoluteTime, view, projection);
    FailedDrawsNothing(s, acts);
    var i := RunFails(s, acts);
    assert forall k :: 3 <= k < 7 ==> acts[k] == Set(p, ws[k - 3]);
    assert 3 <= i < 7;
    j := i - 3;
    forall k | 0 <= k < j ensures Loc(s, p, ws[k].name) != -1 {
      assert Resolves(s, acts[k + 3]);
    }
  }

  // ---------------------------------------------------------------- CubeWithNormalsAndUV

  const LitCubeImage := "silkBoxed.png"
  const LitCubeSpecularImage := "silkSpecular.png"

  /** The steps of `CubeWithNormalsAndUV.Draw`: the diffuse texture on unit 0, the specular map
      on unit 1, then all 36 indices. */
  function LitCubeDraw(diffuse: Handle, specular: Handle): seq<Action> {
    BindActions(diffuse, 0) + BindActions(specular, 1) + [Issue(DrawElements(|LitCubeIndices()|))]
  }

  /** `CubeWithNormalsAndUV`: a cube with normals and UVs, a diffuse texture and a specular
      map. It has no program of its own. */
  class CubeWithNormalsAndUV {
    const gl: GLState
    const texture: Simple2DTexture
    const specularMap: Simple2DTexture

    ghost predicate Valid()
      reads this, gl
    {
      gl.Valid() && texture.gl == gl && specularMap.gl == gl
    }

    /** `DiffuseTexture`. */
    function DiffuseTexture(): Simple2DTexture? {
      texture
    }

    /** `SpecularTexture`: null, although a specular map is loaded. */
    function SpecularTexture(): Simple2DTexture? {
      null
    }

    constructor Wrap(texture: Simple2DTexture, specularMap: Simple2DTexture)
      ensures gl == texture.gl && this.texture == texture && this.specularMap == specularMap
    {
      gl := texture.gl;
      this.texture := texture;
      this.specularMap := specularMap;
    }

    /** `new CubeWithNormalsAndUV(gl)`: loads `Assets/silkBoxed.png`, then
        `Assets/silkSpecular.png`; the first failure propagates. */
    static method New(gl: GLState, disk: Disk) returns (r: Result<CubeWithNormalsAndUV>)
      requires gl.Valid()
      modifies gl
      ensures gl.Valid()
      ensures var s, diffuse, specular := old(gl.state), AssetPath(disk, LitCubeImage), AssetPath(disk, LitCubeSpecularImage);
              r.Success? <==> FileLoads(s, disk, diffuse) && FileLoads(FileLoaded(s, disk, diffuse), disk, specular)
      ensures var s, diffuse, specular := old(gl.state), AssetPath(disk, LitCubeImage), AssetPath(disk, LitCubeSpecularImage);
              r.Failure? ==> r.error == if FileLoads(s, disk, diffuse) then FileError(disk, specular) else FileError(disk, diffuse)
      ensures var s, diffuse, specular := old(gl.state), AssetPath(disk, LitCubeImage), AssetPath(disk, LitCubeSpecularImage);
              if FileLoads(s, disk, diffuse) then
                && gl.state == FileTried(FileLoaded(s, disk, diffuse), disk, specular)
                && gl.trace == old(gl.trace) + FileLoadCalls(s, disk, diffuse) + FileTriedCalls(FileLoaded(s, disk, diffuse), disk, specular)
              else gl.state == FileTried(s, disk, diffuse) && gl.trace == old(gl.trace) + FileTriedCalls(s, disk, diffuse)
      ensures r.Success? ==>
                && fresh(r.value) && r.value.Valid() && r.value.gl == gl
                && r.value.texture.filePath == Some(AssetPath(disk, LitCubeImage))
                && r.value.specularMap.filePath == Some(AssetPath(disk, LitCubeSpecularImage))
                && r.value.DiffuseTexture() == r.value.texture && r.value.SpecularTexture() == null
                && var s, diffuse, specular := old(gl.state), AssetPath(disk, LitCubeImage), AssetPath(disk, LitCubeSpecularImage);
                   var loaded := FileLoaded(s, disk, diffuse);
                   && r.value.texture.handle == s.next && r.value.specularMap.handle == loaded.next
                   && gl.state == FileLoaded(loaded, disk, specular)
                   && gl.trace == old(gl.trace) + FileLoadCalls(s, disk, diffuse) + FileLoadCalls(loaded, disk, specular)
    {
      ghost var s0 := gl.state;
      var diffuse := LoadAsset(gl, disk, LitCubeImage);
      if diffuse.Failure? {
        return Failure(diffuse.error);
      }
      FileTriedLoads(s0, disk, AssetPath(disk, LitCubeImage));
      var specular := LoadAsset(gl, disk, LitCubeSpecularImage);
      if specular.Failure? {
        return Failure(specular.error);
      }
      var cube := new CubeWithNormalsAndUV.Wrap(diffuse.value, specular.value);
      return Success(cube);
    }

    method Draw()
      requires Valid()
      modifies gl
      ensures Valid()
      ensures Run(Start(old(gl.state)), LitCubeDraw(texture.handle, specularMap.handle)).result.Success?
      ensures At(gl, Start(old(gl.state)), old(gl.trace), LitCubeDraw(texture.handle, specularMap.handle))
    {
      ghost var d, t0 := Start(gl.state), gl.trace;
      assert t0 + d.calls == t0;
      ghost var a0 := BindActions(texture.handle, 0);
      StepBind(texture, 0, d, t0, []);
      assert [] + a0 == a0;
      StepBind(specularMap, 1, d, t0, a0);
      StepDraw(gl, DrawElements(|LitCubeIndices()|), d, t0, a0 + BindActions(specularMap.handle, 1));
    }

    /** `Dispose()`: releases neither texture. */
    method Dispose() {
    }
  }

  /** The lit cube's draw always goes through: it binds the diffuse texture on unit 0 and the
      specular map on unit 1, then draws the 36 indices; unless the driver refuses a binding,
      unit 1 is left active with both textures bound where the material expects them. */
  lemma LitCubeDrawEffect(s: GLData, diffuse: Handle, specular: Handle)
    ensures var r := Run(Start(s), LitCubeDraw(diffuse, specular));
            && r.result.Success?
            && r.calls == BindCalls(diffuse, 0) + BindCalls(specular, 1) + [DrawElements(36)]
            && r.state == DrawStep(TextureBound(TextureBound(s, diffuse, 0), specular, 1), DrawElements(36))
  {
    var d := Start(s);
    var b0, b1, draw := BindActions(diffuse, 0), BindActions(specular, 1), Issue(DrawElements(36));
    assert LitCubeDraw(diffuse, specular) == b0 + b1 + [draw];
    RunAppend(d, b0 + b1, [draw]);
    RunAppend(d, b0, b1);
    BindRun(d, diffuse, 0);
    BindRun(Run(d, b0), specular, 1);
    Extended(Run(d, b0 + b1), [], draw);
    assert [] + [draw] == [draw];
  }

  /** With its bindings accepted, the lit cube leaves the diffuse texture on unit 0 and the
      specular map on unit 1. */
  lemma LitCubeUnits(s: GLData, diffuse: Handle, specular: Handle)
    requires Accepts(s.driver, BindCalls(diffuse, 0) + BindCalls(specular, 1))
    ensures var units := Run(Start(s), LitCubeDraw(diffuse, specular)).state.tex.units;
            0 in units && 1 in units && units[0] == diffuse && units[1] == specular
  {
    LitCubeDrawEffect(s, diffuse, specular);
    var cs := BindCalls(diffuse, 0) + BindCalls(specular, 1);
    assert cs[0] == Tex(ActiveTexture(0)) && cs[1] == Tex(BindTexture(diffuse));
    assert cs[2] == Tex(ActiveTexture(1)) && cs[3] == Tex(BindTexture(specular));
    BoundEffect(s, diffuse, 0);
    BoundEffect(TextureBound(s, diffuse, 0), specular, 1);
  }
}
