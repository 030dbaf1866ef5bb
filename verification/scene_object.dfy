/** `SceneObject` (Entities/SceneObject.cs) with its transformation behaviours
    (Entities/ITransformationBehavior.cs, Entities/Behaviors/): a buffered mesh drawn with a
    program that must define the model, view and projection matrices. */
module SceneObjects {
  import opened Values
  import opened GL
  import opened Shaders
  import opened Uniforms
  import opened Actions
  import opened Drawing
  import opened Cameras
  import opened BufferedMeshes

  /** `ITransformationBehavior.Result`: a position, a scale and a rotation, fixed once built. */
  datatype TransformResult = TransformResult(position: Vec3, scale: real, rotation: Quat)

  /** The behaviours an object can run at each draw. */
  datatype Behavior = ColorWithAmbientLightShaderArgs(lightPosition: Vec3)

  const ObjectColor := Vec3(1.0, 0.5, 0.31)

  /** What `ColorWithAmbientLightShaderArgs.Run` writes: the object colour, a white light, and
      the light position it was built with. */
  function BehaviorWrites(b: Behavior): seq<Write> {
    [ Write("objectColor", Vec3Uniform(ObjectColor)),
      Write("lightColor", Vec3Uniform(One3)),
      Write("lightPos", Vec3Uniform(b.lightPosition)) ]
  }

  /** The writes of the behaviour, if any. */
  function BehaviorSteps(p: Handle, behavior: Option<Behavior>): seq<Action> {
    if behavior.Some? then Sets(p, BehaviorWrites(behavior.value)) else []
  }

  /** `BuildModelMatrix`: identity, then the rotation, the scale and the translation. */
  function BuildModelMatrix(t: TransformResult): Mat4 {
    Product(Product(Product(IdentityMatrix, FromQuaternion(t.rotation)), ScaleMatrix(t.scale)), TranslationMatrix(t.position))
  }

  /** The transform a behaviour's `Run` returns for an object whose own transform is `own`. */
  function Ran(b: Behavior, own: TransformResult): TransformResult {
    match b
    case ColorWithAmbientLightShaderArgs(_) => own
  }

  /** The transform `Draw` builds the model matrix from: the behaviour's result when there is a
      behaviour, the object's own transform otherwise. */
  function DrawnTransform(behavior: Option<Behavior>, own: TransformResult): TransformResult {
    if behavior.Some? then Ran(behavior.value, own) else own
  }

  /** The part of the heap a draw reads: the object's transform, the camera's matrices and the
      transformation the mesh applies when it prepares. */
  datatype DrawView = DrawView(own: TransformResult, view: Mat4, projection: Mat4, meshTransformation: Option<Mat4>)

  const RequiredUniforms := ["uModel", "uView", "uProjection"]

  const UniformsMissing := InvalidOperation(RequiredUniformsMissing)

  /** The constructor's presence checks: one `HasUniform` per required uniform, stopping at the
      first missing one, as the short-circuiting `&&` inside the fold does. */
  function Checks(p: Handle): (r: seq<Action>)
    ensures |r| == 3 && forall i :: 0 <= i < 3 ==> r[i] == Require(p, RequiredUniforms[i], UniformsMissing)
  {
    [Require(p, "uModel", UniformsMissing), Require(p, "uView", UniformsMissing), Require(p, "uProjection", UniformsMissing)]
  }

  function MatrixWrites(model: Mat4, view: Mat4, projection: Mat4): seq<Write> {
    [Write("uModel", MatrixUniform(model)), Write("uView", MatrixUniform(view)), Write("uProjection", MatrixUniform(projection))]
  }

  /** The steps of `Draw`: use the program, run the behaviour, write the three matrices, then
      draw the mesh with the steps `meshDraw`. */
  function DrawSteps(p: Handle, behavior: Option<Behavior>, model: Mat4, view: Mat4, projection: Mat4, meshDraw: seq<Action>): seq<Action> {
    [Issue(Prog(UseProgram(p)))] + BehaviorSteps(p, behavior) + Sets(p, MatrixWrites(model, view, projection)) + meshDraw
  }

  /** After the steps `acts` went through, a method specified from a fresh start continues them. */
  lemma Continued(d: Issued<()>, acts: seq<Action>, rest: seq<Action>, t0: seq<Call>)
    requires Run(d, acts).result.Success?
    ensures var m := Run(d, acts);
            var r := Run(Start(m.state), rest);
            Run(d, acts + rest) == Issued(r.state, m.calls + r.calls, r.result) && t0 + m.calls + r.calls == t0 + (m.calls + r.calls)
  {
    RunAppend(d, acts, rest);
    RunShift(Run(d, acts), rest);
  }

  class SceneObject {
    var position: Vec3
    var scale: real
    var rotation: Quat
    const mesh: BufferedMesh
    const shaders: ShaderProgram
    const behavior: Option<Behavior>

    ghost predicate Valid()
      reads this, mesh, mesh.gl, mesh.source.Context(), mesh.source.Holder()
    {
      mesh.Valid() && shaders.gl == mesh.gl
    }

    /** Everything `Valid` asks except that the context is valid: links between parts that are
        fixed once built, so that drawing another object on the same context keeps them. */
    predicate Wired() {
      var m := mesh;
      && shaders.gl == m.gl && m.source.Context() == m.gl
      && m.elementBuffer.gl == m.gl && m.vertexBuffer.gl == m.gl && m.vertexArray.gl == m.gl
      && m.vertexArray.handle != 0 && m.vertexArray.vertexSize == FloatSize
      && match m.source
         case TexturedQuadSource(q) => q.shaders.gl == q.gl && q.texture.gl == q.gl
         case DataSource(d) => d.texture != null ==> d.texture.gl == d.gl
         case LitCubeSource(c) => c.texture.gl == c.gl && c.specularMap.gl == c.gl
    }

    lemma WiredValid()
      ensures Valid() <==> mesh.gl.Valid() && Wired()
    {
    }

    /** What a draw with `camera` reads from outside the object's fixed parts. */
    function View(camera: Camera): DrawView
      reads this, camera, if mesh.source.TexturedQuadSource? then {mesh.source.quad} else {}
    {
      DrawView(Identity(), camera.ViewMatrix(), camera.ProjectionMatrix(), mesh.source.Transformation())
    }

    /** The steps of `Draw` given what it reads. */
    function StepsFor(v: DrawView): seq<Action> {
      DrawSteps(shaders.handle, behavior, BuildModelMatrix(DrawnTransform(behavior, v.own)), v.view, v.projection,
                mesh.DrawActionsWith(v.meshTransformation))
    }

    /** The steps of `Draw` with the view of `camera`, from the object's current transform. */
    function Steps(camera: Camera): seq<Action>
      reads this, camera, if mesh.source.TexturedQuadSource? then {mesh.source.quad} else {}
    {
      StepsFor(View(camera))
    }

    /** The object's own transform, as `ITransformationBehavior.Result.Identity(this)`. */
    function Identity(): (t: TransformResult)
      reads this
      ensures t.position == position && t.scale == scale && t.rotation == rotation
    {
      TransformResult(position, scale, rotation)
    }

    constructor Wrap(mesh: BufferedMesh, shaders: ShaderProgram, behavior: Option<Behavior>)
      ensures this.mesh == mesh && this.shaders == shaders && this.behavior == behavior
      ensures position == Zero3 && scale == 1.0 && rotation == IdentityRotation
    {
      this.mesh := mesh;
      this.shaders := shaders;
      this.behavior := behavior;
      position := Zero3;
      scale := 1.0;
      rotation := IdentityRotation;
    }

    /** `new SceneObject(mesh, shaders, transformationBehavior)`: a null mesh, then a null
        program, throws; then a program without all three matrix uniforms throws. A new object
        sits at the origin with scale 1 and no rotation. */
    static method New(mesh: BufferedMesh?, shaders: ShaderProgram?, behavior: Option<Behavior>) returns (r: Result<SceneObject>)
      requires mesh != null ==> mesh.Valid()
      requires mesh != null && shaders != null ==> shaders.gl == mesh.gl
      modifies if mesh != null && shaders != null then {shaders.gl} else {}
      ensures mesh == null ==> r == Failure(ArgumentNull("mesh"))
      ensures mesh != null && shaders == null ==> r == Failure(ArgumentNull("shaders"))
      ensures mesh != null && shaders != null ==>
                var run := Run(Start(old(shaders.gl.state)), Checks(shaders.handle));
                && mesh.Valid() && At(shaders.gl, Start(old(shaders.gl.state)), old(shaders.gl.trace), Checks(shaders.handle))
                && (r.Success? <==> run.result.Success?)
                && (r.Failure? ==> r.error == run.result.error)
                && (r.Success? ==> && fresh(r.value) && r.value.Valid() && r.value.mesh == mesh && r.value.shaders == shaders
                                   && r.value.behavior == behavior
                                   && r.value.Identity() == TransformResult(Zero3, 1.0, IdentityRotation))
    {
      if mesh == null {
        return Failure(ArgumentNull("mesh"));
      }
      if shaders == null {
        return Failure(ArgumentNull("shaders"));
      }
      ghost var d, t0 := Start(shaders.gl.state), shaders.gl.trace;
      assert t0 + d.calls == t0;
      var checks := Checks(shaders.handle);
      var o := StepRequire(shaders, "uModel", UniformsMissing, d, t0, []);
      assert [] + [checks[0]] == checks[..1];
      if o.Pass? {
        o := StepRequire(shaders, "uView", UniformsMissing, d, t0, checks[..1]);
        assert checks[..1] + [checks[1]] == checks[..2];
        if o.Pass? {
          o := StepRequire(shaders, "uProjection", UniformsMissing, d, t0, checks[..2]);
          assert checks[..2] + [checks[2]] == checks;
        } else {
          StoppedAt(d, checks[..2], [checks[2]]);
          assert checks[..2] + [checks[2]] == checks;
        }
      } else {
        StoppedAt(d, checks[..1], checks[1..]);
        assert checks[..1] + checks[1..] == checks;
      }
      if o.Fail? {
        return Failure(o.error);
      }
      var created := new SceneObject.Wrap(mesh, shaders, behavior);
      return Success(created);
    }

    /** `transformationBehavior.Run(deltaTime, absoluteTime, this)` for the behaviour `b`, as the
        next steps of a draw: its writes, then its result. */
    method RunBehavior(b: Behavior, ghost d: Issued<()>, ghost t0: seq<Call>, ghost acts: seq<Action>) returns (o: Outcome, t: TransformResult)
      requires shaders.gl.Valid() && Run(d, acts).result.Success? && At(shaders.gl, d, t0, acts)
      modifies shaders.gl
      ensures shaders.gl.Valid()
      ensures var done := acts + Sets(shaders.handle, BehaviorWrites(b));
              At(shaders.gl, d, t0, done) && o == Reported(Run(d, done).result)
      ensures t == Ran(b, Identity())
    {
      o := StepWrites(shaders, BehaviorWrites(b), d, t0, acts);
      t := Identity();
    }

    /** The start of `Draw`: use the program, then run the behaviour, if any. */
    method Begin(ghost d: Issued<()>, ghost t0: seq<Call>) returns (o: Outcome, t: TransformResult)
      requires Valid() && d == Start(mesh.gl.state) && t0 == mesh.gl.trace
      modifies mesh.gl
      ensures Valid()
      ensures var begun := [Issue(Prog(UseProgram(shaders.handle)))] + BehaviorSteps(shaders.handle, behavior);
              At(mesh.gl, d, t0, begun) && o == Reported(Run(d, begun).result)
      ensures t == DrawnTransform(behavior, Identity())
    {
      assert t0 + d.calls == t0;
      ghost var used := [Issue(Prog(UseProgram(shaders.handle)))];
      StepUse(shaders, d, t0, []);
      assert [] + used == used;
      if behavior.Some? {
        o, t := RunBehavior(behavior.value, d, t0, used);
      } else {
        assert used + BehaviorSteps(shaders.handle, behavior) == used;
        o, t := Pass, Identity();
      }
    }

    /** `Draw(deltaTime, absoluteTime, viewSource)`: the first missing uniform throws and nothing
        is drawn. The object's position, scale and rotation are only read. */
    method Draw(viewSource: Camera) returns (o: Outcome)
      requires Valid()
      modifies mesh.gl
      ensures Valid()
      ensures position == old(position) && scale == old(scale) && rotation == old(rotation)
      ensures At(mesh.gl, Start(old(mesh.gl.state)), old(mesh.gl.trace), Steps(viewSource))
      ensures o == Reported(Run(Start(old(mesh.gl.state)), Steps(viewSource)).result)
    {
      ghost var d, t0 := Start(mesh.gl.state), mesh.gl.trace;
      var view, projection := viewSource.ViewMatrix(), viewSource.ProjectionMatrix();
      var t;
      o, t := Begin(d, t0);
      ghost var begun := [Issue(Prog(UseProgram(shaders.handle)))] + BehaviorSteps(shaders.handle, behavior);
      var model := BuildModelMatrix(t);
      StepsSplit(viewSource, begun, model);
      if o.Fail? {
        StoppedAt(d, begun, Sets(shaders.handle, MatrixWrites(model, view, projection)) + mesh.DrawActions());
        return;
      }
      o := Finish(d, t0, begun, model, view, projection);
    }

    /** The steps of `Draw` split where `Begin` and `Finish` meet. */
    lemma StepsSplit(camera: Camera, begun: seq<Action>, model: Mat4)
      requires begun == [Issue(Prog(UseProgram(shaders.handle)))] + BehaviorSteps(shaders.handle, behavior)
      requires model == BuildModelMatrix(DrawnTransform(behavior, Identity()))
      ensures var writes := Sets(shaders.handle, MatrixWrites(model, camera.ViewMatrix(), camera.ProjectionMatrix()));
              && Steps(camera) == begun + (writes + mesh.DrawActions())
              && Steps(camera) == begun + writes + mesh.DrawActions()
    {
      var writes := Sets(shaders.handle, MatrixWrites(model, camera.ViewMatrix(), camera.ProjectionMatrix()));
      assert Steps(camera) == begun + writes + mesh.DrawActions();
      SeqAssociates(begun, writes, mesh.DrawActions());
    }

    /** The rest of `Draw`: the three matrices, then the mesh. */
    method Finish(ghost d: Issued<()>, ghost t0: seq<Call>, ghost begun: seq<Action>, model: Mat4, view: Mat4, projection: Mat4)
      returns (o: Outcome)
      requires Valid() && Run(d, begun).result.Success? && At(mesh.gl, d, t0, begun)
      modifies mesh.gl
      ensures Valid()
      ensures var steps := begun + Sets(shaders.handle, MatrixWrites(model, view, projection)) + mesh.DrawActions();
              At(mesh.gl, d, t0, steps) && o == Reported(Run(d, steps).result)
    {
      ghost var meshDraw := mesh.DrawActions();
      var writes := MatrixWrites(model, view, projection);
      ghost var written := begun + Sets(shaders.handle, writes);
      o := StepWrites(shaders, writes, d, t0, begun);
      if o.Fail? {
        StoppedAt(d, written, meshDraw);
        return;
      }
      o := mesh.Draw();
      Continued(d, written, meshDraw, t0);
    }

    /** The calls of `Dispose`: the program's, then the mesh's element buffer, vertex buffer and
        vertex array. */
    function DisposeCalls(): (cs: seq<Call>)
      ensures |cs| == 4
    {
      [ Prog(DeleteProgram(shaders.handle)), Buf(DeleteBuffer(mesh.elementBuffer.handle)),
        Buf(DeleteBuffer(mesh.vertexBuffer.handle)), Arr(DeleteVertexArray(mesh.vertexArray.handle)) ]
    }

    /** The names the object owns: its program and its mesh's two buffers and vertex array. */
    function Names(): set<Handle> {
      {shaders.handle, mesh.elementBuffer.handle, mesh.vertexBuffer.handle, mesh.vertexArray.handle}
    }

    /** Disposal only releases names, and only the object's own: all four go when the driver
        accepts every call, and the flag is raised when it refuses one. */
    lemma DisposeReleases(s: GLData)
      ensures AllDeletions(DisposeCalls())
      ensures Applied(s, DisposeCalls())
              == s.(live := s.live - Released(s.driver, DisposeCalls()), error := s.error || !Accepts(s.driver, DisposeCalls()))
      ensures Released(s.driver, DisposeCalls()) <= Names()
      ensures Accepts(s.driver, DisposeCalls()) ==> Released(s.driver, DisposeCalls()) == Names()
    {
      var cs, d := DisposeCalls(), s.driver;
      DeletionsRelease(s, cs);
      forall h | h in Released(d, cs)
        ensures h in Names()
      {
        ReleasedNames(d, cs, h);
      }
      if Accepts(d, cs) {
        forall i | 0 <= i < 4
          ensures DeletedBy(cs[i]).value in Released(d, cs)
        {
          ReleasedNames(d, cs, DeletedBy(cs[i]).value);
        }
        assert DeletedBy(cs[0]).value == shaders.handle && DeletedBy(cs[1]).value == mesh.elementBuffer.handle;
        assert DeletedBy(cs[2]).value == mesh.vertexBuffer.handle && DeletedBy(cs[3]).value == mesh.vertexArray.handle;
      }
    }

    /** `Dispose()`: the program, then the mesh. */
    method Dispose()
      requires Valid()
      modifies mesh.gl
      ensures Valid()
      ensures mesh.gl.trace == old(mesh.gl.trace) + DisposeCalls()
      ensures mesh.gl.state == Applied(old(mesh.gl.state), DisposeCalls())
    {
      ghost var s0 := mesh.gl.state;
      shaders.Dispose();
      mesh.Dispose();
      var cs := DisposeCalls();
      Applied4(s0, cs[0], cs[1], cs[2], cs[3]);
    }
  }

  // ---------------------------------------------------------------- properties

  /** A behaviour that returns `Identity` leaves the model matrix what it is without one. */
  lemma IdentityBehavior(b: Behavior, own: TransformResult)
    ensures BuildModelMatrix(DrawnTransform(Some(b), own)) == BuildModelMatrix(DrawnTransform(None, own))
  {
  }

  /** The presence checks go through exactly when all three matrix uniforms exist, after one
      lookup each; otherwise the constructor throws after the lookups up to the first missing
      one. No check changes the context. */
  lemma ChecksOutcome(s: GLData, p: Handle)
    ensures var r := Run(Start(s), Checks(p));
            var lookups := [Lookup(p, "uModel"), Lookup(p, "uView"), Lookup(p, "uProjection")];
            && r.state == s
            && (r.result.Success? <==> forall i :: 0 <= i < 3 ==> Loc(s, p, RequiredUniforms[i]) != -1)
            && (r.result.Success? ==> r.calls == lookups)
            && (r.result.Failure? ==> && r.result.error == UniformsMissing
                                      && exists i :: && 0 <= i < 3 && Loc(s, p, RequiredUniforms[i]) == -1
                                                     && (forall j :: 0 <= j < i ==> Loc(s, p, RequiredUniforms[j]) != -1)
                                                     && r.calls == lookups[..i + 1])
  {
    var acts := Checks(p);
    var d0 := Start(s);
    var d1 := Next(d0, acts[0]);
    var d2 := Next(d1, acts[1]);
    assert acts[..1][..0] == [] && acts[..2][..1] == acts[..1] && acts[..2] == acts[..3][..2] && acts[..3] == acts;
    assert Run(d0, acts[..1]) == d1;
    assert Run(d0, acts[..2]) == d2;
    assert Run(d0, acts) == Next(d2, acts[2]);
  }

  /** Once the constructor's checks went through, the matrix writes of every later draw find
      their uniforms, as long as the program's links are unchanged: a draw can then only fail in
      the behaviour's writes or in the mesh's own steps. */
  lemma ChecksGuardWrites(s: GLData, r: GLData, p: Handle, model: Mat4, view: Mat4, projection: Mat4)
    requires Run(Start(s), Checks(p)).result.Success? && SameLinks(s, r)
    ensures Written(r, p, MatrixWrites(model, view, projection)).result.Success?
    ensures forall i :: 0 <= i < 3 ==> Resolves(r, Sets(p, MatrixWrites(model, view, projection))[i])
  {
    ChecksOutcome(s, p);
    var ws := MatrixWrites(model, view, projection);
    assert forall i :: 0 <= i < 3 ==> ws[i].name == RequiredUniforms[i];
    assert forall i :: 0 <= i < 3 ==> Loc(r, p, ws[i].name) == Loc(s, p, ws[i].name);
    WrittenSucceeds(r, p, ws);
  }

  /** Every step of `Sets` resolves exactly when every name written has a location. */
  lemma SetsResolve(s: GLData, p: Handle, ws: seq<Write>)
    ensures AllResolve(s, Sets(p, ws)) <==> forall i :: 0 <= i < |ws| ==> Loc(s, p, ws[i].name) != -1
  {
    var q := Sets(p, ws);
    assert forall i :: 0 <= i < |ws| ==> (Resolves(s, q[i]) <==> Loc(s, p, ws[i].name) != -1);
  }

  /** The calls of the three matrix writes, with the locations of `s`. */
  function MatrixCalls(s: GLData, p: Handle, model: Mat4, view: Mat4, projection: Mat4): seq<Call> {
    [ Lookup(p, "uModel"), Prog(Uniform(Loc(s, p, "uModel"), MatrixUniform(model))),
      Lookup(p, "uView"), Prog(Uniform(Loc(s, p, "uView"), MatrixUniform(view))),
      Lookup(p, "uProjection"), Prog(Uniform(Loc(s, p, "uProjection"), MatrixUniform(projection))) ]
  }

  lemma MatrixExpected(s: GLData, p: Handle, model: Mat4, view: Mat4, projection: Mat4)
    ensures Expected(s, Sets(p, MatrixWrites(model, view, projection))) == MatrixCalls(s, p, model, view, projection)
  {
    var ws := MatrixWrites(model, view, projection);
    SetsExpected(s, p, ws);
    var e := Expected(s, Sets(p, ws));
    assert e[0] == Lookup(p, ws[0].name) && e[2] == Lookup(p, ws[1].name) && e[4] == Lookup(p, ws[2].name);
  }

  /** A draw's calls: the program is made current first, then come the behaviour's writes, the
      model, view and projection matrices in that order, and the mesh's calls last. */
  lemma DrawStepsCalls(s: GLData, p: Handle, behavior: Option<Behavior>, model: Mat4, view: Mat4, projection: Mat4, meshDraw: seq<Action>)
    ensures Expected(s, DrawSteps(p, behavior, model, view, projection, meshDraw))
            == [Prog(UseProgram(p))] + Expected(s, BehaviorSteps(p, behavior)) + MatrixCalls(s, p, model, view, projection) + Expected(s, meshDraw)
  {
    var u, b, m := [Issue(Prog(UseProgram(p)))], BehaviorSteps(p, behavior), Sets(p, MatrixWrites(model, view, projection));
    ExpectedAppend(s, u + b + m, meshDraw);
    ExpectedAppend(s, u + b, m);
    ExpectedAppend(s, u, b);
    ExpectedOne(s, u[0]);
    MatrixExpected(s, p, model, view, projection);
  }

  /** Every step of a draw resolves exactly when the behaviour's uniforms, the three matrices
      and every step of the mesh's draw do. */
  lemma DrawStepsResolve(s: GLData, p: Handle, behavior: Option<Behavior>, model: Mat4, view: Mat4, projection: Mat4, meshDraw: seq<Action>)
    ensures AllResolve(s, DrawSteps(p, behavior, model, view, projection, meshDraw)) <==>
              && (behavior.Some? ==> forall i :: 0 <= i < 3 ==> Loc(s, p, BehaviorWrites(behavior.value)[i].name) != -1)
              && (forall i :: 0 <= i < 3 ==> Loc(s, p, RequiredUniforms[i]) != -1)
              && AllResolve(s, meshDraw)
  {
    var u, b, m := [Issue(Prog(UseProgram(p)))], BehaviorSteps(p, behavior), Sets(p, MatrixWrites(model, view, projection));
    AllResolveAppend(s, u + b + m, meshDraw);
    AllResolveAppend(s, u + b, m);
    AllResolveAppend(s, u, b);
    assert AllResolve(s, u);
    if behavior.Some? {
      SetsResolve(s, p, BehaviorWrites(behavior.value));
    }
    var ws := MatrixWrites(model, view, projection);
    SetsResolve(s, p, ws);
    assert forall i :: 0 <= i < 3 ==> ws[i].name == RequiredUniforms[i];
  }

  /** A draw goes through exactly when the behaviour's uniforms, the three matrices and every
      step of the mesh's draw resolve; it then issues the calls `DrawStepsCalls` lists. */
  lemma DrawStepsSucceeds(s: GLData, p: Handle, behavior: Option<Behavior>, model: Mat4, view: Mat4, projection: Mat4, meshDraw: seq<Action>)
    requires AllHarmless(meshDraw)
    ensures var r := Run(Start(s), DrawSteps(p, behavior, model, view, projection, meshDraw));
            && (r.result.Success? <==>
                  && (behavior.Some? ==> forall i :: 0 <= i < 3 ==> Loc(s, p, BehaviorWrites(behavior.value)[i].name) != -1)
                  && (forall i :: 0 <= i < 3 ==> Loc(s, p, RequiredUniforms[i]) != -1)
                  && AllResolve(s, meshDraw))
            && (r.result.Success? ==> r.calls == [Prog(UseProgram(p))] + Expected(s, BehaviorSteps(p, behavior))
                                                 + MatrixCalls(s, p, model, view, projection) + Expected(s, meshDraw))
  {
    var steps := DrawSteps(p, behavior, model, view, projection, meshDraw);
    DrawStepsHarmless(p, behavior, model, view, projection, meshDraw);
    RunOutcome(s, steps);
    DrawStepsResolve(s, p, behavior, model, view, projection, meshDraw);
    DrawStepsCalls(s, p, behavior, model, view, projection, meshDraw);
  }

  /** The steps before the mesh's issue only the `UseProgram` call. */
  lemma DrawStepsHarmless(p: Handle, behavior: Option<Behavior>, model: Mat4, view: Mat4, projection: Mat4, meshDraw: seq<Action>)
    requires AllHarmless(meshDraw)
    ensures AllHarmless(DrawSteps(p, behavior, model, view, projection, meshDraw))
    ensures NoDraws([Issue(Prog(UseProgram(p)))] + BehaviorSteps(p, behavior) + Sets(p, MatrixWrites(model, view, projection)))
  {
    var u, b, m := [Issue(Prog(UseProgram(p)))], BehaviorSteps(p, behavior), Sets(p, MatrixWrites(model, view, projection));
    SetsHarmless(p, MatrixWrites(model, view, projection));
    if behavior.Some? {
      SetsHarmless(p, BehaviorWrites(behavior.value));
    }
    HarmlessAppend(u, b);
    HarmlessAppend(u + b, m);
    HarmlessAppend(u + b + m, meshDraw);
  }

  /** A draw whose mesh issues its only draw call last issues no draw call when it fails: a
      missing uniform aborts the draw. */
  lemma DrawStepsFailsDrawsNothing(s: GLData, p: Handle, behavior: Option<Behavior>, model: Mat4, view: Mat4, projection: Mat4, meshDraw: seq<Action>)
    requires AllHarmless(meshDraw) && meshDraw != [] && NoDraws(meshDraw[..|meshDraw| - 1])
    requires Run(Start(s), DrawSteps(p, behavior, model, view, projection, meshDraw)).result.Failure?
    ensures forall c :: c in Run(Start(s), DrawSteps(p, behavior, model, view, projection, meshDraw)).calls ==> !IsDraw(c)
  {
    var steps := DrawSteps(p, behavior, model, view, projection, meshDraw);
    DrawStepsHarmless(p, behavior, model, view, projection, meshDraw);
    var u, b, m := [Issue(Prog(UseProgram(p)))], BehaviorSteps(p, behavior), Sets(p, MatrixWrites(model, view, projection));
    var last := meshDraw[..|meshDraw| - 1];
    assert steps[..|steps| - 1] == u + b + m + last;
    HarmlessAppend(u + b + m, last);
    FailedDrawsNothing(s, steps);
  }
}
