/** The object attributes (Entities/Attributes/): each `IObjectAttribute.WriteToShader` is a
    fixed list of uniform writes through a program. None of them reads the time arguments the
    interface passes, so those are not parameters here. */
module ObjectAttributes {
  import opened Values
  import opened GL
  import opened Shaders
  import opened Textures
  import opened Uniforms
  import opened Actions
  import opened Drawing
  import opened Cameras
  import opened Meshes
  import opened TexturedMeshes

  // ---------------------------------------------------------------- writes in general

  /** The writes `ws`, in order, through `shaders`, stopping at the first missing uniform. */
  method WriteAll(shaders: ShaderProgram, ws: seq<Write>) returns (o: Outcome)
    requires shaders.gl.Valid()
    modifies shaders.gl
    ensures shaders.gl.Valid()
    ensures var r := Written(old(shaders.gl.state), shaders.handle, ws);
            shaders.gl.state == r.state && shaders.gl.trace == old(shaders.gl.trace) + r.calls && o == Reported(r.result)
  {
    ghost var d, t0 := Start(shaders.gl.state), shaders.gl.trace;
    assert t0 + d.calls == t0;
    o := StepWrites(shaders, ws, d, t0, []);
    assert [] + Sets(shaders.handle, ws) == Sets(shaders.handle, ws);
    SetsWritten(d.state, shaders.handle, ws);
  }

  /** A successful run of writes issues, for write `i`, the lookup of its name and then its
      value at the location that name has. */
  lemma WrittenCalls(s: GLData, p: Handle, ws: seq<Write>)
    requires Written(s, p, ws).result.Success?
    ensures var cs := Written(s, p, ws).calls;
            && |cs| == 2 * |ws|
            && forall i :: 0 <= i < |ws| ==> cs[2 * i] == Lookup(p, ws[i].name) && cs[2 * i + 1] == Prog(Uniform(Loc(s, p, ws[i].name), ws[i].value))
  {
    SetsWritten(s, p, ws);
    RunOutcome(s, Sets(p, ws));
    SetsExpected(s, p, ws);
  }

  /** The names `names` have pairwise different locations in `p`. */
  predicate Separate(s: GLData, p: Handle, names: seq<string>) {
    forall i, j :: 0 <= i < j < |names| ==> Loc(s, p, names[i]) != Loc(s, p, names[j])
  }

  function Names(ws: seq<Write>): (names: seq<string>)
    ensures |names| == |ws| && forall i :: 0 <= i < |ws| ==> names[i] == ws[i].name
  {
    seq(|ws|, i requires 0 <= i < |ws| => ws[i].name)
  }

  /** The value uniform `name` of `p` holds in state `r` for the program current in `s`. */
  function ValueOf(s: GLData, r: GLData, p: Handle, name: string): Option<UniformValue> {
    var key := (s.prog.current, Loc(s, p, name));
    if key in r.prog.uniforms then Some(r.prog.uniforms[key]) else None
  }

  /** After an accepted, successful run with a program current, a write no later write
      overrides leaves its value in its uniform. */
  lemma LastStored(s: GLData, p: Handle, ws: seq<Write>, i: nat)
    requires s.prog.current != 0 && i < |ws| && LastWriteTo(s, p, ws, i)
    requires Written(s, p, ws).result.Success? && Accepts(s.driver, Written(s, p, ws).calls)
    ensures ValueOf(s, Written(s, p, ws).state, p, ws[i].name) == Some(ws[i].value)
  {
    WrittenLastWins(s, p, ws);
  }

  /** After an accepted, successful run of writes to pairwise separate uniforms, with a program
      current, every uniform holds the value written to it. */
  lemma AllStored(s: GLData, p: Handle, ws: seq<Write>)
    requires s.prog.current != 0 && Separate(s, p, Names(ws))
    requires Written(s, p, ws).result.Success? && Accepts(s.driver, Written(s, p, ws).calls)
    ensures forall i :: 0 <= i < |ws| ==> ValueOf(s, Written(s, p, ws).state, p, ws[i].name) == Some(ws[i].value)
  {
    forall i | 0 <= i < |ws|
      ensures ValueOf(s, Written(s, p, ws).state, p, ws[i].name) == Some(ws[i].value)
    {
      forall j | i < j < |ws|
        ensures Loc(s, p, ws[j].name) != Loc(s, p, ws[i].name)
      {
        assert Names(ws)[i] == ws[i].name && Names(ws)[j] == ws[j].name;
      }
      LastStored(s, p, ws, i);
    }
  }

  // ---------------------------------------------------------------- the attributes

  const LightColor := One3
  /** `lightColor * new Vector3(0.5f)`. */
  const DiffuseColor := Hadamard(LightColor, Vec3(0.5, 0.5, 0.5))
  /** `diffuseColor * new Vector3(0.2f)`. */
  const AmbientColor := Hadamard(DiffuseColor, Vec3(0.2, 0.2, 0.2))
  const LightSpecular := Vec3(1.0, 1.0, 1.0)

  const MaterialColor := Vec3(1.0, 0.5, 0.31)
  const MaterialSpecular := Vec3(0.5, 0.5, 0.5)
  const Shininess: real := 32.0

  /** The attributes an object's program can receive. `LitByEmmisive` keeps the camera it was
      given and reads that camera's position on every write. */
  datatype ObjectAttribute =
    | LitByEmmisive(lightPosition: Vec3, camera: Camera)
    | SimpleMaterial
    | SpecularWithTextureMaterial

  /** `new LitByEmmisive(lightPosition, camera)`: a null camera throws. */
  function NewLitByEmmisive(lightPosition: Vec3, camera: Camera?): (r: Result<ObjectAttribute>)
    ensures camera == null <==> r.Failure?
    ensures r.Failure? ==> r.error == ArgumentNull("camera")
    ensures r.Success? ==> r.value.LitByEmmisive? && r.value.lightPosition == lightPosition && r.value.camera == camera
  {
    if camera == null then Failure(ArgumentNull("camera")) else Success(LitByEmmisive(lightPosition, camera))
  }

  /** What `LitByEmmisive` writes: the camera position, the light position, the light's three
      colours, and the light position again. */
  function LitWrites(cameraPosition: Vec3, lightPosition: Vec3): seq<Write> {
    [ Write("cameraPos", Vec3Uniform(cameraPosition)),
      Write("light.position", Vec3Uniform(lightPosition)),
      Write("light.ambient", Vec3Uniform(AmbientColor)),
      Write("light.diffuse", Vec3Uniform(DiffuseColor)),
      Write("light.specular", Vec3Uniform(LightSpecular)),
      Write("light.position", Vec3Uniform(lightPosition)) ]
  }

  function SimpleMaterialWrites(): seq<Write> {
    [ Write("material.ambient", Vec3Uniform(MaterialColor)),
      Write("material.diffuse", Vec3Uniform(MaterialColor)),
      Write("material.specular", Vec3Uniform(MaterialSpecular)),
      Write("material.shininess", FloatUniform(Shininess)) ]
  }

  /** The two samplers are texture unit numbers, then the shininess. */
  function SpecularMaterialWrites(): seq<Write> {
    [ Write("material.diffuse", IntUniform(0)),
      Write("material.specular", IntUniform(1)),
      Write("material.shininess", FloatUniform(Shininess)) ]
  }

  /** The writes `WriteToShader` issues for `a` while the camera is where it is now. */
  function Writes(a: ObjectAttribute): seq<Write>
    reads if a.LitByEmmisive? then {a.camera} else {}
  {
    match a
    case LitByEmmisive(lightPosition, camera) => LitWrites(camera.position, lightPosition)
    case SimpleMaterial => SimpleMaterialWrites()
    case SpecularWithTextureMaterial => SpecularMaterialWrites()
  }

  /** `a.WriteToShader(shaders, deltaTime, absoluteTime)`: the first missing uniform throws and
      ends the writes. */
  method WriteToShader(a: ObjectAttribute, shaders: ShaderProgram) returns (o: Outcome)
    requires shaders.gl.Valid()
    modifies shaders.gl
    ensures shaders.gl.Valid()
    ensures var r := Written(old(shaders.gl.state), shaders.handle, Writes(a));
            shaders.gl.state == r.state && shaders.gl.trace == old(shaders.gl.trace) + r.calls && o == Reported(r.result)
  {
    var ws := Writes(a);
    o := WriteAll(shaders, ws);
  }

  // ---------------------------------------------------------------- LitByEmmisive

  /** The colours: diffuse is half the white light, ambient a fifth of the diffuse colour. */
  lemma LitColors()
    ensures DiffuseColor == Times(0.5, LightColor) && AmbientColor == Times(0.2, DiffuseColor)
    ensures DiffuseColor == Vec3(0.5, 0.5, 0.5) && AmbientColor == Vec3(0.1, 0.1, 0.1)
  {
    assert LightColor == Vec3(1.0, 1.0, 1.0);
    assert DiffuseColor == Vec3(1.0 * 0.5, 1.0 * 0.5, 1.0 * 0.5) == Vec3(0.5, 0.5, 0.5);
    assert AmbientColor == Vec3(0.5 * 0.2, 0.5 * 0.2, 0.5 * 0.2) == Vec3(0.1, 0.1, 0.1);
  }

  const LitNames := ["cameraPos", "light.position", "light.ambient", "light.diffuse", "light.specular", "light.position"]

  /** A successful `LitByEmmisive` write issues the six writes in order, and its two writes of
      the light position issue the same two calls. */
  lemma LitOrder(s: GLData, p: Handle, cameraPosition: Vec3, lightPosition: Vec3)
    requires Written(s, p, LitWrites(cameraPosition, lightPosition)).result.Success?
    ensures var cs := Written(s, p, LitWrites(cameraPosition, lightPosition)).calls;
            && |cs| == 12
            && (forall i :: 0 <= i < 6 ==> cs[2 * i] == Lookup(p, LitNames[i]))
            && cs[1] == Prog(Uniform(Loc(s, p, "cameraPos"), Vec3Uniform(cameraPosition)))
            && cs[2] == cs[10] && cs[3] == cs[11]
            && cs[3] == Prog(Uniform(Loc(s, p, "light.position"), Vec3Uniform(lightPosition)))
  {
    var ws := LitWrites(cameraPosition, lightPosition);
    assert Names(ws) == LitNames;
    LitOrderOf(s, p, ws, cameraPosition, lightPosition);
  }

  lemma LitOrderOf(s: GLData, p: Handle, ws: seq<Write>, cameraPosition: Vec3, lightPosition: Vec3)
    requires |ws| == 6 && Names(ws) == LitNames
    requires ws[0].value == Vec3Uniform(cameraPosition) && ws[1] == ws[5] && ws[1].value == Vec3Uniform(lightPosition)
    requires Written(s, p, ws).result.Success?
    ensures var cs := Written(s, p, ws).calls;
            && |cs| == 12
            && (forall i :: 0 <= i < 6 ==> cs[2 * i] == Lookup(p, LitNames[i]))
            && cs[1] == Prog(Uniform(Loc(s, p, "cameraPos"), Vec3Uniform(cameraPosition)))
            && cs[2] == cs[10] && cs[3] == cs[11]
            && cs[3] == Prog(Uniform(Loc(s, p, "light.position"), Vec3Uniform(lightPosition)))
  {
    WrittenCalls(s, p, ws);
    assert ws[0].name == Names(ws)[0] && ws[1].name == Names(ws)[1];
  }

  /** A `LitByEmmisive` write succeeds exactly when its five uniforms exist; otherwise it names
      the first one missing, in write order. */
  lemma LitOutcome(s: GLData, p: Handle, cameraPosition: Vec3, lightPosition: Vec3)
    ensures var r := Written(s, p, LitWrites(cameraPosition, lightPosition));
            var names := ["cameraPos", "light.position", "light.ambient", "light.diffuse", "light.specular"];
            && (r.result.Success? <==> forall i :: 0 <= i < 5 ==> Loc(s, p, names[i]) != -1)
            && (r.result.Failure? ==> exists i :: 0 <= i < 5 && r.result.error == InvalidOperation(UniformMissing(names[i]))
                                                 && Loc(s, p, names[i]) == -1 && forall j :: 0 <= j < i ==> Loc(s, p, names[j]) != -1)
  {
    var ws := LitWrites(cameraPosition, lightPosition);
    var names := ["cameraPos", "light.position", "light.ambient", "light.diffuse", "light.specular"];
    WrittenSucceeds(s, p, ws);
    assert forall i :: 0 <= i < 5 ==> ws[i].name == names[i];
    assert ws[5].name == names[1];
    if Written(s, p, ws).result.Failure? {
      var i := WrittenFails(s, p, ws);
      assert Loc(s, p, ws[1].name) != -1 || i <= 1;
      assert i < 5;
      assert forall j :: 0 <= j < i ==> Loc(s, p, names[j]) != -1;
    }
  }

  /** With a program current and every write accepted, the light position ends up stored,
      whatever locations the other uniforms have: its last write is the final write. */
  lemma LitPosition(s: GLData, p: Handle, cameraPosition: Vec3, lightPosition: Vec3)
    requires s.prog.current != 0
    requires var r := Written(s, p, LitWrites(cameraPosition, lightPosition)); r.result.Success? && Accepts(s.driver, r.calls)
    ensures ValueOf(s, Written(s, p, LitWrites(cameraPosition, lightPosition)).state, p, "light.position") == Some(Vec3Uniform(lightPosition))
  {
    var ws := LitWrites(cameraPosition, lightPosition);
    LastStored(s, p, ws, 5);
  }

  /** With the five uniforms at separate locations, each holds what `LitByEmmisive` wrote:
      the camera position, the light position and the light's colours. */
  lemma LitStores(s: GLData, p: Handle, cameraPosition: Vec3, lightPosition: Vec3)
    requires s.prog.current != 0
    requires Separate(s, p, ["cameraPos", "light.position", "light.ambient", "light.diffuse", "light.specular"])
    requires var r := Written(s, p, LitWrites(cameraPosition, lightPosition)); r.result.Success? && Accepts(s.driver, r.calls)
    ensures var r := Written(s, p, LitWrites(cameraPosition, lightPosition)).state;
            && ValueOf(s, r, p, "cameraPos") == Some(Vec3Uniform(cameraPosition))
            && ValueOf(s, r, p, "light.position") == Some(Vec3Uniform(lightPosition))
            && ValueOf(s, r, p, "light.ambient") == Some(Vec3Uniform(Vec3(0.1, 0.1, 0.1)))
            && ValueOf(s, r, p, "light.diffuse") == Some(Vec3Uniform(Vec3(0.5, 0.5, 0.5)))
            && ValueOf(s, r, p, "light.specular") == Some(Vec3Uniform(One3))
  {
    var ws := LitWrites(cameraPosition, lightPosition);
    var names := ["cameraPos", "light.position", "light.ambient", "light.diffuse", "light.specular"];
    assert forall i :: 0 <= i < 5 ==> ws[i].name == names[i];
    assert ws[5].name == names[1];
    forall i, j | 0 <= i < j < 5
      ensures Loc(s, p, ws[i].name) != Loc(s, p, ws[j].name)
    {
      assert Loc(s, p, names[i]) != Loc(s, p, names[j]);
    }
    LastStored(s, p, ws, 0);
    LastStored(s, p, ws, 2);
    LastStored(s, p, ws, 3);
    LastStored(s, p, ws, 4);
    LastStored(s, p, ws, 5);
  }

  // ---------------------------------------------------------------- the materials

  /** With its four uniforms at separate locations, `SimpleMaterial` leaves ambient and diffuse
      at (1, 0.5, 0.31), specular at (0.5, 0.5, 0.5) and shininess at 32. */
  lemma SimpleMaterialStores(s: GLData, p: Handle)
    requires s.prog.current != 0
    requires Separate(s, p, ["material.ambient", "material.diffuse", "material.specular", "material.shininess"])
    requires var r := Written(s, p, SimpleMaterialWrites()); r.result.Success? && Accepts(s.driver, r.calls)
    ensures var r := Written(s, p, SimpleMaterialWrites()).state;
            && ValueOf(s, r, p, "material.ambient") == Some(Vec3Uniform(Vec3(1.0, 0.5, 0.31)))
            && ValueOf(s, r, p, "material.diffuse") == Some(Vec3Uniform(Vec3(1.0, 0.5, 0.31)))
            && ValueOf(s, r, p, "material.specular") == Some(Vec3Uniform(Vec3(0.5, 0.5, 0.5)))
            && ValueOf(s, r, p, "material.shininess") == Some(FloatUniform(32.0))
  {
    var ws := SimpleMaterialWrites();
    assert Names(ws) == ["material.ambient", "material.diffuse", "material.specular", "material.shininess"];
    AllStored(s, p, ws);
    assert ws[0].name == "material.ambient" && ws[1].name == "material.diffuse";
    assert ws[2].name == "material.specular" && ws[3].name == "material.shininess";
  }

  /** The samplers `SpecularWithTextureMaterial` writes name the units the lit cube binds: after
      the cube's draw, unit `material.diffuse` holds the diffuse texture and unit
      `material.specular` the specular map. */
  lemma SpecularUnitsMatch(s: GLData, diffuse: Handle, specular: Handle)
    requires Accepts(s.driver, BindCalls(diffuse, 0) + BindCalls(specular, 1))
    ensures var units := Run(Start(s), LitCubeDraw(diffuse, specular)).state.tex.units;
            var ws := SpecularMaterialWrites();
            && ws[0].name == "material.diffuse" && ws[0].value.IntUniform? && ws[0].value.i in units && units[ws[0].value.i] == diffuse
            && ws[1].name == "material.specular" && ws[1].value.IntUniform? && ws[1].value.i in units && units[ws[1].value.i] == specular
  {
    LitCubeUnits(s, diffuse, specular);
  }

  /** With its three uniforms at separate locations, `SpecularWithTextureMaterial` leaves the
      samplers at units 0 and 1 and shininess at 32. */
  lemma SpecularMaterialStores(s: GLData, p: Handle)
    requires s.prog.current != 0
    requires Separate(s, p, ["material.diffuse", "material.specular", "material.shininess"])
    requires var r := Written(s, p, SpecularMaterialWrites()); r.result.Success? && Accepts(s.driver, r.calls)
    ensures var r := Written(s, p, SpecularMaterialWrites()).state;
            && ValueOf(s, r, p, "material.diffuse") == Some(IntUniform(0))
            && ValueOf(s, r, p, "material.specular") == Some(IntUniform(1))
            && ValueOf(s, r, p, "material.shininess") == Some(FloatUniform(32.0))
  {
    var ws := SpecularMaterialWrites();
    assert Names(ws) == ["material.diffuse", "material.specular", "material.shininess"];
    AllStored(s, p, ws);
    assert ws[0].name == "material.diffuse" && ws[1].name == "material.specular" && ws[2].name == "material.shininess";
  }
}
