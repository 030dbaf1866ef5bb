# Custom3dEngine core, modelled in Dafny

This project models the core of Custom3dEngine, a small C# OpenGL engine built on Silk.NET, and
proves properties of that model. The engine wraps OpenGL objects in disposable classes:
buffer objects, vertex array objects, 2D textures and shader programs. It describes meshes as
vertex tables plus attribute descriptors. It uploads them, loads models through an importer,
composes scene objects into scenes and drives them from a camera. Services are registered in a
small container.

How the model is built:

- **The GL driver** (`gl.dfy`, module `GL`) is a state machine over the driver objects: buffers,
  vertex arrays, textures, shaders and programs. It also holds the binding points, the active
  texture unit, the uniform store and the sticky error flag. Each GL call the engine issues is a
  `Call` value, and its effect is a function of the state. The class `GLState` holds that state
  and a ghost trace of every call issued. Every engine wrapper takes a `GLState` and changes it
  only through its methods. `EnsureCallSucceeded` (DebugUtils/GLErrorDetector.cs) is the
  error-flag check.
- **Wrapper classes** keep the fields the C# classes mutate:
  - `BufferObjects.BufferObject`, `VertexArrays.VertexArrayObject`, `Textures.Simple2DTexture`,
    `Shaders.ShaderProgram`, `BufferedMeshes.BufferedMesh`;
  - the mesh classes in `Meshes` and `TexturedMeshes`;
  - `SceneObjects.SceneObject`, `Scenes.Scene`, `Cameras.Camera`, `Models.Model`,
    `Services.EngineContainer`.

  Each method states its new state and the calls it issued, on the paths that throw as well as
  on success. The one exception is a model load that fails partway through its walk; it is
  listed under "Left out". The calls are tied to a pure function of the inputs, such as
  `CreateCalls`, `PointerCalls` or `FileTriedCalls`, about which lemmas are proved.
- **Drawing sequences** (`actions.dfy`, `drawing.dfy`) are lists of `Action`s. An action is a
  GL call, a uniform write, or a "this uniform must exist" guard that throws
  `InvalidOperationException`. `Run` executes such a list and stops at the first failure.
  Lemmas give the order of the writes, the values stored, and the fact that a failed guard draws
  nothing.
- **Uniform writes** (`uniforms.dfy`) are consecutive `SetUniform` calls. `Written` is what they
  leave, and lemmas state last-write-wins and "other uniforms unchanged".
- **Mesh layout** (`vertex_layout.dfy`, `mesh_tables.dfy`, `mesh_data.dfy`):
  - the standard attribute locations;
  - every constant vertex and index table, kept as rows of rows so that lengths, index bounds
    and vertex coverage are proved;
  - the importer's interleaved vertex packing, specified by a declarative "slot i·stride+k
    holds component k of vertex i" reading.
- **Model loading** (`model.dfy`): the importer is an oracle value, namely a scene graph or a
  failure. The pre-order node walk, the per-mesh packing and the texture cache are proved
  against reference functions.
- **Numbers**: matrices, quaternions and vectors are opaque values of `Values` where the source
  only passes them along. Camera arithmetic is over `real`. Its trigonometry and normalisation
  arrive as parameters.

`Simple2DTexture.FilePath` is modelled as a `const`, because only the constructor assigns it.
Where the interfaces in the source disagree with their callers, the model follows the callers:

- `ShaderProgram` as shown declares no `HasUniform`, vector or matrix `SetUniform` overloads,
  although every caller uses them;
- `BufferedMesh` calls `PrepareForDrawing` on its source mesh, and only
  `QuadWithTextureCoordinates` defines it.

## Model

| member | source | states |
|---|---|---|
| GL.GLState.EnsureCallSucceeded | DebugUtils/GLErrorDetector.cs:6-12 | glGetError is issued and clears the error flag; the outcome is a `GLCallFailed` failure exactly when the flag was set before the call, and nothing else changes |
| AssetTagger.LimitTag | DebugUtils/GLAssetTagger.cs:7-11 | the cut as written: a prefix of the tag, the whole tag when it is within the maximum length and exactly `maxLength` characters otherwise; it fails (an out-of-range slice) exactly when the tag is longer than a negative maximum |
| AssetTagger.LimitTagIdempotent | DebugUtils/GLAssetTagger.cs:9-10 | cutting an already cut label gives the same cut |
| AssetTagger.LimitTagRefusedAtLimit | DebugUtils/GLAssetTagger.cs:9-12 | as written, a tag of at least the maximum length yields a label of exactly that length, which glObjectLabel refuses with an error (finding 1) |
| AssetTagger.FitTag | DebugUtils/GLAssetTagger.cs:9-10 | the corrected cut: a prefix of the tag shorter than the maximum, equal to the tag exactly when the tag is shorter than the maximum |
| AssetTagger.FitTagAccepted | DebugUtils/GLAssetTagger.cs:12 | the corrected label of a live object is accepted by glObjectLabel's length rule and becomes that object's label, nothing else changes, and its length is the tag's or `maxLength - 1` |
| AssetTagger.TaggedLabels | DebugUtils/GLAssetTagger.cs:12-13 | a tagging whose error check passes records exactly the label sent |
| AssetTagger.TagAsset | DebugUtils/GLAssetTagger.cs:6-15 | issues the maximum-length query, then (when the cut succeeds) the label call and the error check, with the label cut as written; the new state and outcome are those of `Tagged` for that cut |
| AssetTagger.TagAssetFitted | DebugUtils/GLAssetTagger.cs:6-15 | the same tagging with the corrected cut |
| Textures.RowCallsFlip | GLAbstractions/Simple2DTexture.cs:64-71 | iteration `i` of the row loop uploads source row `height - 1 - i` to destination row `i`, then checks for an error |
| Textures.UploadTexels | GLAbstractions/Simple2DTexture.cs:63-74 | after `k` rows, destination row `d` holds source row `height - 1 - d` when `d < k`, and is still undefined otherwise |
| Textures.UploadFlips | GLAbstractions/Simple2DTexture.cs:58-75 | after the whole loop the texture holds the image upside down: texel (x, d) is pixel (x, height - 1 - d) |
| Textures.RowStep | GLAbstractions/Simple2DTexture.cs:69-71 | one row upload whose check passes appends exactly that row's write to the bound texture's image and changes nothing else |
| Textures.UploadProgress | GLAbstractions/Simple2DTexture.cs:60-74 | when the reservation and the first `k` row checks pass, the bound texture holds the reserved storage plus the first `k` row writes, and nothing else changed |
| Textures.ParametersEffect | GLAbstractions/Simple2DTexture.cs:84-95 | when its error check passes, `SetParameters` has set clamp-to-edge wrapping, trilinear minification, linear magnification, base level 0 and max level 8 on the bound texture and generated its mipmaps |
| Textures.LoadedImageEffect | GLAbstractions/Simple2DTexture.cs:52-56 | a load whose checks all pass leaves the bound texture holding the flipped image, configured by `SetParameters` |
| Textures.SelectedEffect | GLAbstractions/Simple2DTexture.cs:16-17 | generating a name and binding it makes that new name unit 0's texture |
| Textures.SelectedKeepsNames | GLAbstractions/Simple2DTexture.cs:16-17 | generating and binding allocate exactly the new name |
| Textures.LabelledKeeps | GLAbstractions/Simple2DTexture.cs:35-37 | tagging with `TagAsset`'s cut changes only labels; a non-empty debug name is recorded as cut, and none leaves the labels as they were |
| Textures.FromImageEffect | GLAbstractions/Simple2DTexture.cs:30-41 | a texture built from an image is a fresh live name bound on unit 0, holding the flipped image, configured, and labelled with its debug name if any |
| Textures.TagPasses | GLAbstractions/Simple2DTexture.cs:35-37 | a tagging of a non-empty name that passes leaves exactly the label `LimitTag` cut |
| Textures.TagRefused | GLAbstractions/Simple2DTexture.cs:35-37 | a tagging that fails means the tagging does not go through, and leaves the state `TagTried` gives: unchanged after a failed cut, or the refused label call with its flag cleared |
| Textures.ImageBuiltRefused | GLAbstractions/Simple2DTexture.cs:30-41 | when the tagging does not go through, the image constructor stops after it: nothing is uploaded, and the calls are generate, bind and the tagger's |
| Textures.ImageBuiltTagged | GLAbstractions/Simple2DTexture.cs:30-41 | when the tagging goes through, the image constructor goes on to load the image on the labelled texture |
| Textures.ImageBuiltKeepsName | GLAbstractions/Simple2DTexture.cs:30-41 | whatever happens, the image constructor leaves its generated name allocated; a constructor that throws does not delete it |
| Textures.RawEffect | GLAbstractions/Simple2DTexture.cs:77-82 | raw data defines the bound texture's storage with the bytes as given, so texel (x, y) is the four bytes at `4 * (y * width + x)` |
| Textures.NextRow | GLAbstractions/Simple2DTexture.cs:64-72 | one iteration of the row loop extends the call log and the texture state from `i` rows to `i + 1` rows |
| Textures.RowsTriedFirst | GLAbstractions/Simple2DTexture.cs:63-74 | when some row check fails, the loop has stopped right after the first that fails, every row before it having passed |
| Textures.RowsTriedStops | GLAbstractions/Simple2DTexture.cs:63-74 | once the check of row `k` fails after the first `k - 1` passed, the loop has run exactly `k` iterations, however many rows the image has |
| Textures.ImageTriedStopped | GLAbstractions/Simple2DTexture.cs:52-75 | a load whose row check `k` is the first to fail leaves exactly the first `k` rows uploaded, after the reserve call and those rows' calls, and never sets the parameters |
| Textures.ImageTriedUploaded | GLAbstractions/Simple2DTexture.cs:52-56 | a load whose row checks all pass goes on to `SetParameters`, with its calls after the rows' |
| Textures.ImageStopsAtFirstFailure | GLAbstractions/Simple2DTexture.cs:52-75 | a load that does not go through stopped at the first failing check: a row, with every earlier row passed, or the parameters' check after all rows |
| Textures.RowCallsPrefix | GLAbstractions/Simple2DTexture.cs:64-73 | the calls of the first `k` row iterations begin the calls of the first `m` for `k <= m` |
| Textures.ImageCallsPrefix | GLAbstractions/Simple2DTexture.cs:52-95 | whatever happens, a load issues the beginning of the calls of a load that goes through, and its last call is the error check that ended it |
| Textures.UploadingKeepsNames | GLAbstractions/Simple2DTexture.cs:63-74 | the row uploads allocate and release no name |
| Textures.TextureCallKeepsNames | GLAbstractions/Simple2DTexture.cs:64-95 | a texture command other than generate or delete leaves the live names and the next name unchanged |
| Textures.ParametersKeepNames | GLAbstractions/Simple2DTexture.cs:84-95 | `SetParameters` allocates and releases no name |
| Textures.ImageTriedKeepsNames | GLAbstractions/Simple2DTexture.cs:52-95 | a load, passing or not, allocates and releases no name |
| Textures.Simple2DTexture.FromFile | GLAbstractions/Simple2DTexture.cs:12-19 | succeeds exactly when the file decodes and every check of the load passes; then the texture is the next fresh name, bound on unit 0, holding the flipped image and configured (`FileLoadEffect`), with the path remembered and the calls generate, bind, reserve, the rows and the parameters; on every path the state and the calls are `FileTried` and `FileTriedCalls`: a file that does not decode stops right after the binding with the decoder's error, and a failed check stops the upload there with `GLCallFailed` |
| Textures.FileLoadEffect | GLAbstractions/Simple2DTexture.cs:12-19 | a file load that goes through leaves a fresh live name bound on unit 0 holding the flipped image, configured, and changes no other texture, buffer, array, program or label |
| Textures.FileTriedLoads | GLAbstractions/Simple2DTexture.cs:12-19 | a file load that goes through leaves the state `FileLoaded` and issues the calls `FileLoadCalls` |
| Textures.FileTriedKeepsName | GLAbstractions/Simple2DTexture.cs:12-19 | whatever happens, a file load leaves its generated name allocated; a constructor that throws does not delete it |
| Textures.Simple2DTexture.FromRawData | GLAbstractions/Simple2DTexture.cs:23-29 | succeeds exactly when the data is non-empty and the parameters' check passes; empty data is `IndexOutOfRange`, raised after generate and bind with nothing else done; otherwise the state is the new name bound on unit 0 with its storage defined from the bytes and the parameters applied, after the calls generate, bind, define and the parameters, whether the check passes or fails with `GLCallFailed` |
| Textures.Simple2DTexture.FromImage | GLAbstractions/Simple2DTexture.cs:30-41 | tags through `TagAsset` with the cut as written: succeeds exactly when the tagging goes through (no name, or the cut name is accepted as a label) and the image loads; a tag the driver refuses is `GLCallFailed`, a negative maximum `ArgumentOutOfRange`; on success the state is the loaded image on the labelled new name and the calls are generate, bind, the tagger's calls, reserve, rows, parameters; on every path the state and calls are `ImageBuilt` and `ImageBuiltCalls`, which stop after the tagging when it fails and at the first failed check of the load |
| Textures.FromImageRefusesLongNames | GLAbstractions/Simple2DTexture.cs:35-37 | a debug name at least as long as GL_MAX_LABEL_LENGTH never gets through the tagging, so the constructor throws for it |
| Textures.Simple2DTexture.Bind | GLAbstractions/Simple2DTexture.cs:43-46 | select the unit, then bind this texture on it |
| Textures.Simple2DTexture.Unbind | GLAbstractions/Simple2DTexture.cs:48-50 | bind 0 on the active unit |
| Textures.Simple2DTexture.Dispose | GLAbstractions/Simple2DTexture.cs:97-99 | delete the texture; an accepted delete removes its name from the live set |
| Textures.Simple2DTexture.LoadTextureFromImage | GLAbstractions/Simple2DTexture.cs:52-56 | succeeds exactly when every check of the upload and of the parameters passes, leaving the flipped image configured on the bound texture after the reserve, row and parameter calls; otherwise `GLCallFailed`; on every path the state and calls are `ImageTried` and `ImageCalls`: the upload stops at the first failed row check, and the parameters are set only after every row passed |
| Textures.Simple2DTexture.LoadImageToTexture | GLAbstractions/Simple2DTexture.cs:58-75 | reserve storage, then upload the rows from the last to the first; it stops at the first row whose check fails, with exactly the rows before it uploaded |
| Textures.Simple2DTexture.UploadRow | GLAbstractions/Simple2DTexture.cs:64-72 | one loop iteration uploads source row `y` to destination row `height - 1 - y` and checks; the state and calls advance by exactly one row, and it passes exactly when that row's check passes |
| Textures.Simple2DTexture.SetParameters | GLAbstractions/Simple2DTexture.cs:84-95 | the six parameter calls and glGenerateMipmap, then the error check |
| Shaders.ShaderPath | GLAbstractions/ShaderProgram.cs:57-60 | a shader file is looked up under the `Shaders` directory of the working directory |
| Shaders.LoadEffect | GLAbstractions/ShaderProgram.cs:59-72 | a missing file fails with no GL call; otherwise a new shader name holds the file's text and is compiled, and the load succeeds with that name exactly when the compile log is empty, failing with the log otherwise |
| Shaders.LinkEffect | GLAbstractions/ShaderProgram.cs:15-20 | creating, attaching both shaders and linking gives a new program with both attached, linked from their sources; the link status is 1 exactly when the driver links those sources |
| Shaders.CleanupEffect | GLAbstractions/ShaderProgram.cs:26-30 | detaching and deleting both shaders leaves the program with nothing attached and both shader names released |
| Shaders.FinishedEffect | GLAbstractions/ShaderProgram.cs:15-30 | after the two shaders compiled, the build succeeds exactly when the link succeeds, and then returns the new program, releases both shaders and keeps what the program was linked from |
| Shaders.StagesEffect | GLAbstractions/ShaderProgram.cs:12-13 | both stages load exactly when both files exist and both compile cleanly; then they are two consecutive new names holding the two files' texts |
| Shaders.BuildStages | GLAbstractions/ShaderProgram.cs:9-31 | a failed stage fails the build; with both stages loaded the build is the two loads followed by the link and the clean-up |
| Shaders.BuildOutcome | GLAbstractions/ShaderProgram.cs:9-31 | a program is built exactly when both files exist, both compile without a log and the driver links the two texts |
| Shaders.BuildResult | Shaders/ProgramFactory.cs:6-28 | a successful build returns the third new name; the two shader names are released again and the program is linked from the two files' texts |
| Shaders.LoadShader | Shaders/ShaderFactory.cs:8-21 | the state, calls and result are those of `Load` for the stage and file |
| Shaders.BuildProgram | Shaders/ProgramFactory.cs:6-28 | the state, calls and result are those of `Build` for the two files |
| Shaders.ShaderProgram.New | GLAbstractions/ShaderProgram.cs:9-31 | the constructor builds the program as `Build` does; on success the object wraps the new program name, on failure the build's error is raised |
| Shaders.ShaderProgram.Use | GLAbstractions/ShaderProgram.cs:33-35 | glUseProgram on this program; an accepted call makes it the current program |
| Shaders.ShaderProgram.GetUniformLocation | GLAbstractions/ShaderProgram.cs:49-55 | one location query and no state change; a location of -1 is an error naming the uniform |
| Shaders.ShaderProgram.SetUniform | GLAbstractions/ShaderProgram.cs:37-43 | a missing uniform fails after the query alone; otherwise the value is sent to the located uniform |
| Shaders.ShaderProgram.HasUniform | GLAbstractions/ShaderProgram.cs:49-51 | one location query, true exactly when the location is not -1 |
| Shaders.ShaderProgram.Dispose | GLAbstractions/ShaderProgram.cs:45-47 | glDeleteProgram on this program; an accepted call releases its name |
| Shaders.Located | GLAbstractions/ShaderProgram.cs:49-55 | the lookup fails exactly when the driver answers -1, with an error naming the uniform, and otherwise returns that location |
| Shaders.UniformEffect | GLAbstractions/ShaderProgram.cs:37-43 | a uniform sent at a valid location with a program in use is stored for that program and location, and nothing else changes |
| Shaders.UniformWithoutProgram | GLAbstractions/ShaderProgram.cs:37-43 | with no program in use, a uniform call only raises the error flag |
| Uniforms.Reported | GLAbstractions/ShaderProgram.cs:51-53 | a run passes exactly when it succeeded, and a failed run reports its own error |
| Uniforms.ThenEffect | GLAbstractions/ShaderProgram.cs:37-55 | one more `SetUniform` touches only uniform values and the error flag; it succeeds exactly when the name resolves, with two calls, and otherwise fails naming the uniform after one call |
| Uniforms.WrittenKeeps | GLAbstractions/ShaderProgram.cs:37-43 | a run of writes changes only uniform values and the error flag |
| Uniforms.WrittenSucceeds | GLAbstractions/ShaderProgram.cs:37-55 | a run succeeds exactly when every name has a location, issuing a lookup and a write per name |
| Uniforms.WrittenFails | GLAbstractions/ShaderProgram.cs:49-53 | a failed run stopped at the first name without a location: every earlier name resolved, the failure names that one and `2 * i + 1` calls were issued |
| Uniforms.ThenStores | GLAbstractions/ShaderProgram.cs:37-43 | an accepted write after a successful run stores its value for the current program at the located slot |
| Uniforms.LastWrite | GLAbstractions/ShaderProgram.cs:37-43 | the last write of an accepted, successful run overrides the slot it reaches on top of the run before it |
| Uniforms.WrittenClean | GLAbstractions/ShaderProgram.cs:37-43 | an accepted, successful run with a program in use changes only uniform values |
| Uniforms.WrittenLastWins | GLAbstractions/ShaderProgram.cs:37-43 | after such a run each reached location holds the value of the last write to it |
| Uniforms.WrittenKeepsOthers | GLAbstractions/ShaderProgram.cs:37-43 | after such a run a uniform slot no write reached is unchanged, present or absent as before |
| Uniforms.SetNext | GLAbstractions/ShaderProgram.cs:37-43 | `SetUniform` as the next write of a run that has succeeded so far extends the run by that write and reports its outcome |
| Actions.RunStopped | Meshes/BaseMesh.cs:24-26 | once a step has thrown, the later steps of a drawing sequence do nothing |
| Actions.RunAppend | Meshes/BaseMesh.cs:19-29 | running two step lists one after the other is running their concatenation |
| Actions.NextEffect | Meshes/BaseMesh.cs:24-28 | one more step after a successful run goes through exactly when its uniform resolves, issuing its calls; otherwise it throws what the step throws after one lookup |
| Actions.RunOutcome | Meshes/BaseMesh.cs:19-29 | a drawing sequence goes through exactly when every uniform it checks or writes resolves, and then issues the calls of every step in order |
| Actions.RunFails | Meshes/BaseMesh.cs:24-26 | a failed sequence stopped at its first unresolved step, throwing what that step throws, after the calls of the steps before it and one lookup |
| Drawing.FailedDrawsNothing | Meshes/BaseMesh.cs:24-26 | a sequence whose only draw is its last step and that throws issues no draw call |
| Actions.SetStep | GLAbstractions/ShaderProgram.cs:37-43 | `SetUniform` as the next step of a sequence extends the sequence by that write and reports its outcome |
| Drawing.StepRequire | Meshes/BaseMesh.cs:24-26 | `HasUniform` followed by the throw when it answers false is the next `Require` step |
| Drawing.StepWrites | Meshes/BaseMesh.cs:28 | consecutive `SetUniform` calls extend the sequence by one write step each, stopping at the first missing uniform |
| Drawing.SetsWritten | GLAbstractions/ShaderProgram.cs:37-43 | write steps run from a fresh start are exactly the uniform run of the same writes |
| Drawing.SetsExpected | GLAbstractions/ShaderProgram.cs:37-55 | each write issues its lookup and then its write to the location found |
| BufferObjects.ByteSize | GLAbstractions/BufferObject.cs:24 | the upload size is `data.Length * sizeof(T)` for floats and unsigned ints alike (four bytes each), computed as a wrapping 32-bit `int` and sign-extended to `nuint`; exactly four bytes per element below 2^31 bytes |
| GL.NativeByteCount | GLAbstractions/BufferObject.cs:24 | `(nuint)(count * size)` under C#'s default unchecked arithmetic: below 2^64, the same low 32 bits as the product, and the product itself when it fits a signed 32-bit `int` |
| GL.ByteCountWraps | Meshes/MeshUploader.cs:28 | 2^29 four-byte elements give the sign-extended size 2^64 - 2^31, 2^30 give 0, and 2^29 - 1 still give four bytes each |
| BufferObjects.CreateCalls | GLAbstractions/BufferObject.cs:11-30 | the constructor issues five calls, or four when the upload's error check throws before the unbind |
| BufferObjects.CreateEffect | GLAbstractions/BufferObject.cs:11-30 | a constructed buffer is a new live name whose store holds the data, sized by `ByteSize`, for static drawing; the other target's binding is untouched and the own target ends unbound |
| BufferObjects.BindEffect | GLAbstractions/BufferObject.cs:32-34 | binding changes only the own target's binding, to this buffer |
| BufferObjects.BufferObject.New | GLAbstractions/BufferObject.cs:11-30 | generate, bind, upload, check, unbind; a failed upload throws `GLCallFailed` after the check; on success the object wraps the new name for its target |
| BufferObjects.BufferObject.Bind | GLAbstractions/BufferObject.cs:32-34 | glBindBuffer of this buffer on its target |
| BufferObjects.BufferObject.Unbind | GLAbstractions/BufferObject.cs:36-38 | glBindBuffer of 0 on its target |
| BufferObjects.BufferObject.Dispose | GLAbstractions/BufferObject.cs:40-42 | glDeleteBuffer of this buffer; an accepted call releases its name |
| GL.DeletionsRelease | GLAbstractions/BufferObject.cs:40-42 | a run of glDelete* calls changes only liveness and the error flag: the names the driver accepts deleting are released, and the flag is raised when it refuses one |
| GL.ReleasedNames | GLAbstractions/BufferObject.cs:40-42 | a name is released by a run of deletions exactly when some accepted call of the run deletes it |
| VertexArrays.ConstructCalls | GLAbstractions/VertexArrayObject.cs:11-23 | generate, bind the new array, bind the vertex buffer, bind the element buffer only when there is one, and unbind |
| VertexArrays.ConstructEffect | GLAbstractions/VertexArrayObject.cs:11-23 | the new array is a live name and ends unbound; it records the element buffer bound while it was current (the element buffer, or the vertex buffer when that one targets element arrays), and the other arrays keep theirs |
| VertexArrays.BindInto | GLAbstractions/BufferObject.cs:32-34 | an accepted array-buffer bind sets the global binding; an element-buffer bind is recorded in the current vertex array |
| VertexArrays.ByteStride | GLAbstractions/VertexArrayObject.cs:59 | the byte stride is the 32-bit unsigned product of stride and element size: the product itself when it fits |
| VertexArrays.PointerCalls | GLAbstractions/VertexArrayObject.cs:47-61 | bind, enable the attribute, describe it unnormalised with the byte stride and byte offset, unbind |
| VertexArrays.PointerEffect | GLAbstractions/VertexArrayObject.cs:47-61 | the attribute is enabled in this array and reads from the bound array buffer with the given size, type, byte stride and byte offset; the array ends unbound, the driver is the same and nothing else changes |
| VertexArrays.VertexArrayObject.constructor | GLAbstractions/VertexArrayObject.cs:11-23 | the calls and new state are `ConstructCalls` and `Constructed` for a fresh array name |
| VertexArrays.VertexArrayObject.Bind | GLAbstractions/VertexArrayObject.cs:25-27 | glBindVertexArray of this array |
| VertexArrays.VertexArrayObject.Unbind | GLAbstractions/VertexArrayObject.cs:29-31 | glBindVertexArray of 0 |
| VertexArrays.VertexArrayObject.VertexAttribPointer | GLAbstractions/VertexArrayObject.cs:47-61 | the calls and new state are `PointerCalls` and `Pointed` with this array's element size |
| VertexArrays.VertexArrayObject.Dispose | GLAbstractions/VertexArrayObject.cs:63-66 | deletes only the array, not its buffers; an accepted call releases its name |
| BufferObjects.CreatedKeeps | GLAbstractions/BufferObject.cs:11-30 | creating a buffer keeps the state well formed under the same driver and uses exactly one name |
| VertexLayout.GetStandardAttributeLocation | GLAbstractions/ShaderConstants.cs:4-9 | positions, normals and texture coordinates get locations below 3; any other payload type throws `ArgumentOutOfRange` |
| VertexLayout.StandardPayload | GLAbstractions/ShaderConstants.cs:4-9 | the payload type bound to a location, defined exactly for the three standard locations |
| VertexLayout.StandardLocationRoundTrip | GLAbstractions/ShaderConstants.cs:4-9 | a payload type maps to a location exactly when that location maps back to it |
| VertexLayout.StandardLocationInjective | GLAbstractions/ShaderConstants.cs:4-9 | distinct payload types never share a location |
| MeshTables.FlattenLength | Meshes/CubeWithTextureData.cs:23-66 | a table of rows of equal width `k` flattens to `k` values per row |
| MeshTables.Table | Meshes/CubeWithNormalsAndUV.cs:18-43 | a vertex table holds exactly `k` values per row |
| MeshTables.QuadVertices | Meshes/Quad.cs:4-9 | four whole positions of three floats |
| MeshTables.QuadIndices | Meshes/Quad.cs:11-14 | two triangles over the four corners, every index in range and every corner used |
| MeshTables.ColorQuadAttributes | Meshes/QuadWithColorData.cs:12-17 | a position of 3 and a colour of 4 tile a stride of 7 |
| MeshTables.ColorQuadVertices | Meshes/QuadWithColorData.cs:19-25 | four whole vertices of stride 7 |
| MeshTables.ColorQuadIndices | Meshes/QuadWithColorData.cs:27-30 | the same table as the plain quad: two triangles over the four vertices, every index in range and every vertex used |
| MeshTables.TexturedQuadOverflows | Meshes/QuadWithTextureCoordinates.cs:13-18 | as written the texture-coordinate descriptor reads 4 floats from offset 3 in a stride of 5, two floats past its vertex, so the layout does not tile the stride (finding 2) |
| MeshTables.TexturedQuadAttributes | Meshes/QuadWithTextureCoordinates.cs:13-18 | the corrected layout: the same position descriptor and a texture-coordinate descriptor of 2 floats, which tile the stride of 5 (finding 2; the buffered mesh keeps the declared layout) |
| MeshTables.TexturedQuadVertices | Meshes/QuadWithTextureCoordinates.cs:20-26 | four whole vertices of stride 5 |
| MeshTables.TexturedQuadIndices | Meshes/QuadWithTextureCoordinates.cs:28-31 | the same table as the plain quad: two triangles over the four vertices, every index in range and every vertex used |
| MeshTables.TexturedCubeAttributes | Meshes/CubeWithTextureData.cs:16-21 | a position of 3 and texture coordinates of 2 tile a stride of 5 |
| MeshTables.TexturedCubeRows | Meshes/CubeWithTextureData.cs:23-66 | 36 rows of 5 floats, one per corner of the 12 triangles |
| MeshTables.TexturedCubeVertices | Meshes/CubeWithTextureData.cs:23-66 | 36 whole vertices of stride 5 |
| MeshTables.TexturedCubeIndices | Meshes/CubeWithTextureData.cs:68-71 | the plain quad's six indices, all below 4 |
| MeshTables.LitCubeAttributes | Meshes/CubeWithNormalsAndUV.cs:9-16 | position, normal and texture coordinates tile a stride of 8, each at the standard location equal to its position in the list |
| MeshTables.LitCubeRows | Meshes/CubeWithNormalsAndUV.cs:18-43 | 24 rows of 8 floats, four per face |
| MeshTables.LitCubeVertices | Meshes/CubeWithNormalsAndUV.cs:18-43 | 24 whole vertices of stride 8 |
| MeshTables.LitCubeIndices | Meshes/CubeWithNormalsAndUV.cs:45-58 | 36 indices, two triangles per face, every index below 24 and every vertex used |
| MeshUpload.NewUploadedMesh | Meshes/UploadedMesh.cs:12-20 | a null source throws `ArgumentNull`; otherwise the record keeps the three names and its indices are the source's |
| MeshUpload.UploadSize | Meshes/MeshUploader.cs:28 | the size is the element count times `sizeof(uint)`, whatever the element type, computed as a wrapping 32-bit `int` and sign-extended to `nuint`; exactly four bytes per element below 2^31 bytes |
| MeshUpload.Upload | Meshes/MeshUploader.cs:22-30 | null data throws before any call; empty data fails indexing element 0; otherwise one glBufferData for static drawing, sized by `UploadSize` |
| MeshUpload.UploadStores | Meshes/MeshUploader.cs:27-29 | an accepted upload stores the data in the buffer bound to the target and changes nothing else |
| MeshUpload.UploadDataToBuffer | Meshes/MeshUploader.cs:22-30 | the state, calls and outcome are those of `Upload` |
| MeshUpload.OpenedEffect | Meshes/MeshUploader.cs:7-11 | a new vertex array is bound and a new buffer is bound as the array buffer |
| MeshUpload.ElementBoundEffect | Meshes/MeshUploader.cs:14-15 | a new buffer becomes the current vertex array's element buffer |
| MeshUpload.UploadMeshEffect | Meshes/MeshUploader.cs:6-19 | the upload fails with an index error exactly when the vertices or the indices are empty; on success it returns three consecutive new names, leaves the array and both buffers bound and stores the vertices and the indices in them |
| MeshUpload.VerticesUploaded | Meshes/MeshUploader.cs:7-12 | with every call accepted, after the vertex array, the vertex buffer and its upload, both new names are live and bound and the vertex buffer holds the vertices, sized by `UploadSize`; nothing else changed |
| MeshUpload.UploadedState | Meshes/MeshUploader.cs:6-19 | the whole GL state after a successful upload, written out |
| MeshUpload.UploadMeshDataToGpu | Meshes/MeshUploader.cs:6-19 | the state, calls and result are those of `UploadMesh` |
| Meshes.TransformOutcome | Meshes/BaseMesh.cs:19-29 | without a transformation nothing happens; with one, a missing `uModelMatrix` throws naming the mesh type after one lookup, and otherwise the matrix is written to that uniform |
| Meshes.TransformResolves | Meshes/BaseMesh.cs:19-29 | the transformation steps go through exactly when there is no transformation or `uModelMatrix` resolves, and issue the lookup and the write |
| Meshes.BoundEffect | GLAbstractions/Simple2DTexture.cs:43-46 | binding a texture on a unit sets the active unit and that unit's texture, and nothing else |
| Meshes.BindRun | GLAbstractions/Simple2DTexture.cs:43-46 | the two bind steps always go through, issuing the two calls |
| Meshes.CallsOnly | Meshes/DataMesh.cs:23-26 | steps that are plain calls always go through and issue exactly those calls |
| Meshes.DataMesh.New | Meshes/DataMesh.cs:15-21 | a null context throws `ArgumentNull`; otherwise the mesh keeps the attributes, the vertices and the optional texture |
| Meshes.DataMesh.Draw | Meshes/DataMesh.cs:23-26 | binds the texture on unit 0 when there is one, then draws the triangles with the vertex count set to the length of the float array; this always goes through |
| Meshes.DataMesh.Dispose | Meshes/DataMesh.cs:28-32 | deletes the texture when there is one and otherwise does nothing |
| Meshes.DataMeshDraws | Meshes/DataMesh.cs:23-26 | the draw steps succeed and issue the bind calls (when textured) and one glDrawArrays |
| Meshes.QuadWithColorData.New | Meshes/QuadWithColorData.cs:37-40 | the constructor builds its shader program from the two colour-quad shader files and has no transformation; a failed build is raised |
| Meshes.QuadWithColorData.Draw | Meshes/QuadWithColorData.cs:42-47 | use the program, apply the transformation, write `uBlue`, draw the six indices, stopping at the first throw |
| Meshes.QuadWithColorData.Dispose | Meshes/QuadWithColorData.cs:49-51 | deletes the shader program |
| Meshes.ColorQuadDrawResolves | Meshes/QuadWithColorData.cs:42-47 | the draw goes through exactly when `uBlue` resolves and, with a transformation, `uModelMatrix` does too; only the last step draws |
| Meshes.ColorQuadDrawCalls | Meshes/QuadWithColorData.cs:42-47 | a successful draw issues use, the transformation calls, the `uBlue` lookup and write, and one glDrawElements of 6 |
| Meshes.ColorQuadDrawSucceeds | Meshes/QuadWithColorData.cs:42-47 | the draw succeeds exactly when those uniforms resolve, and then issues exactly those calls |
| Meshes.ColorQuadDrawFails | Meshes/QuadWithColorData.cs:42-47 | a failed draw throws for the missing model matrix first, otherwise for `uBlue`, and never draws |
| TexturedMeshes.ExpectedCons | Meshes/CubeWithTextureData.cs:97-104 | the calls of a step list are the first step's calls followed by the rest's |
| TexturedMeshes.LoadAsset | Meshes/QuadWithTextureCoordinates.cs:37 | `<cwd>/Assets/<name>` loaded as by `Simple2DTexture.FromFile`: succeeds exactly when that file loads; then a fresh texture on the next name remembering that path, with the state and the calls of the file load; otherwise the decoder's error or `GLCallFailed` (`FileError`); on every path the state and the calls are those of `FileTried` |
| TexturedMeshes.QuadWithTextureCoordinates.New | Meshes/QuadWithTextureCoordinates.cs:35-38 | the program is built first and a failed build is raised with nothing else done; the quad is built exactly when the build succeeds and `silk.png` loads; then the texture is the name after the build's, and the state and calls are the build's followed by the file load's; after a build that succeeds the state and calls are the file load's `FileTried` whatever happens, and a failed load raises `FileError` |
| TexturedMeshes.QuadWithTextureCoordinates.PrepareForDrawing | Meshes/QuadWithTextureCoordinates.cs:40-45 | bind the texture on unit 0, use the program, write `uTexture` = 0, apply the transformation, stopping at the first throw |
| TexturedMeshes.QuadWithTextureCoordinates.Dispose | Meshes/QuadWithTextureCoordinates.cs:47-50 | deletes the program, then the texture |
| TexturedMeshes.TexturedQuadPrepareResolves | Meshes/QuadWithTextureCoordinates.cs:40-45 | preparing goes through exactly when `uTexture` resolves and, with a transformation, `uModelMatrix` does too; it never draws |
| TexturedMeshes.TexturedQuadPrepareCalls | Meshes/QuadWithTextureCoordinates.cs:40-45 | a successful preparation issues the bind calls, use, the `uTexture` lookup and write of 0, then the transformation calls |
| TexturedMeshes.TexturedQuadPrepareSucceeds | Meshes/QuadWithTextureCoordinates.cs:40-45 | a successful preparation found its uniforms and issued exactly those calls |
| TexturedMeshes.TexturedQuadPrepareFails | Meshes/QuadWithTextureCoordinates.cs:43-44 | a failed preparation throws for `uTexture` first, otherwise for the model matrix |
| TexturedMeshes.CubeWithTextureData.New | Meshes/CubeWithTextureData.cs:80-86 | the program is built first and a failed build is raised with nothing else done; the cube is built exactly when the build succeeds and `wooden_crate.jpg` loads; then it keeps its camera, the texture is the name after the build's, and the state and calls are the build's followed by the file load's; after a build that succeeds the state and calls are the file load's `FileTried` whatever happens, and a failed load raises `FileError` |
| TexturedMeshes.CubeWithTextureData.Draw | Meshes/CubeWithTextureData.cs:93-105 | bind the texture, use the program, write `uTexture`, `uModel`, `uView` and `uProjection` from the time and the camera, draw 36 vertices, stopping at the first throw |
| TexturedMeshes.CubeWithTextureData.Dispose | Meshes/CubeWithTextureData.cs:88-91 | deletes the program, then the texture |
| TexturedMeshes.TexturedCubeDrawResolves | Meshes/CubeWithTextureData.cs:93-105 | the draw goes through exactly when all four uniforms resolve; only the last step draws |
| TexturedMeshes.TexturedCubeDrawCalls | Meshes/CubeWithTextureData.cs:97-104 | a successful draw issues the bind calls, use, a lookup and write per uniform, and glDrawArrays of 36 |
| TexturedMeshes.TexturedCubeDrawSucceeds | Meshes/CubeWithTextureData.cs:97-104 | a successful draw found all four uniforms and issued exactly those calls |
| TexturedMeshes.TexturedCubeDrawFails | Meshes/CubeWithTextureData.cs:99-102 | a failed draw throws naming the first of the four uniforms that does not resolve, every earlier one having resolved, and draws nothing |
| TexturedMeshes.CubeWithNormalsAndUV.New | Meshes/CubeWithNormalsAndUV.cs:67-71 | built exactly when `silkBoxed.png` loads and then `silkSpecular.png` does; the diffuse texture takes the next name and the specular map the one after, the state and calls are the two file loads in turn, the diffuse texture is the first texture and the specular texture property is null; a failed diffuse load stops with its `FileTried` state and calls, a failed specular load follows the whole diffuse load, and the error is that load's `FileError` |
| TexturedMeshes.CubeWithNormalsAndUV.Draw | Meshes/CubeWithNormalsAndUV.cs:73-79 | bind the diffuse map on unit 0 and the specular map on unit 1, then draw the 36 indices; this always goes through |
| TexturedMeshes.LitCubeDrawEffect | Meshes/CubeWithNormalsAndUV.cs:73-79 | the draw succeeds with the two bind pairs and one glDrawElements of 36 |
| TexturedMeshes.LitCubeUnits | Meshes/CubeWithNormalsAndUV.cs:74-75 | after an accepted draw unit 0 holds the diffuse map and unit 1 the specular map |
| BufferedMeshes.Pointers | GLAbstractions/BufferedMesh.cs:24-29 | the attribute loop issues four calls per descriptor |
| BufferedMeshes.Round | GLAbstractions/BufferedMesh.cs:25-28 | one iteration extends the calls and the state from `i` descriptors to `i + 1` |
| BufferedMeshes.PointersSlots | GLAbstractions/BufferedMesh.cs:25-28 | iteration `i` binds the array, enables attribute `i`, describes it from descriptor `i` (count, type, byte stride, byte offset) and unbinds |
| BufferedMeshes.SlotsGrow | GLAbstractions/BufferedMesh.cs:25-28 | enabling and describing attribute `n` adds slot `n` to those already laid out |
| BufferedMeshes.RoundEffect | GLAbstractions/BufferedMesh.cs:25-28 | one accepted round fills slot `n` with descriptor `n`'s layout over the bound array buffer, keeps the slots already filled and the buffers, and leaves the array unbound |
| BufferedMeshes.PointersEffect | GLAbstractions/BufferedMesh.cs:24-29 | after the loop attribute `i` of the array is enabled and reads descriptor `i` of the source's layout as declared from the bound array buffer, for every `i`; buffers and names are untouched and the array ends unbound |
| BufferedMeshes.TexturedQuadPointsFourFloats | GLAbstractions/BufferedMesh.cs:24-29 | for a textured quad the second pointer call reads 4 floats at byte offset 12 of a 20-byte vertex, the declared descriptor (finding 2) |
| BufferedMeshes.BufferedMesh.New | GLAbstractions/BufferedMesh.cs:14-22 | built exactly when both uploads pass their checks, otherwise `GLCallFailed`; on success the element buffer takes the next name, the vertex buffer the one after and the vertex array the third, the calls are the two creations then the array's construction, and the state is that of those calls (`BuildEffect`); a failed element upload stops after its check, and a failed vertex upload after the element buffer's creation and its own check, each with its state and calls |
| BufferedMeshes.BuildEffect | GLAbstractions/BufferedMesh.cs:14-22 | after a successful build exactly three new names are live: the element buffer holding the indices, the vertex buffer holding the vertices and a vertex array recording that element buffer; no other buffer's store changes |
| BufferedMeshes.BuffersEffect | GLAbstractions/BufferedMesh.cs:19-20 | two passing uploads take the next two names, both live, under the same driver, and keep the state well formed |
| BufferedMeshes.BuffersStores | GLAbstractions/BufferedMesh.cs:19-20 | two passing uploads store the indices under the first new name and the vertices under the second and change no other store |
| BufferedMeshes.BufferedMesh.ActivateVertexAttributes | GLAbstractions/BufferedMesh.cs:24-29 | the calls and state are those of one `VertexAttribPointer` per descriptor of the source's declared layout, in order, with the float element size |
| BufferedMeshes.BufferedMesh.Draw | GLAbstractions/BufferedMesh.cs:31-34 | runs the source's `PrepareForDrawing` steps, then glDrawElements of the index count, stopping at the first throw |
| BufferedMeshes.BufferedMesh.Dispose | GLAbstractions/BufferedMesh.cs:36-40 | deletes the element buffer, the vertex buffer and the vertex array, in that order |
| BufferedMeshes.UnhookedSourceDraws | GLAbstractions/BufferedMesh.cs:31-34 | a buffered mesh over a source without the `PrepareForDrawing` hook prepares nothing and draws only its index count: 36 for the lit cube, zero for a data mesh, which has no indices |
| Cameras.Clamp | Entities/Camera.cs:109 | `Math.Clamp`: the result lies in `[min, max]`, equals the value inside the range and the nearer bound outside it |
| Cameras.OppositeKeysCancel | Entities/Camera.cs:83-89 | holding both keys of an opposite pair moves as much as holding neither: not at all |
| Cameras.SingleKey | Entities/Camera.cs:83-105 | each key alone moves by the displacement along its axis: W and S along ±front, D and A along ±right, Space and ControlLeft along ±up |
| Cameras.SixShifts | Entities/Camera.cs:83-105 | the six conditional updates, in the source's order, add up to one displacement by the held keys' combined movement |
| Cameras.Camera.New | Entities/Camera.cs:41-60 | a null window throws `ArgumentNull`; no keyboard or no mouse throws `ArgumentOutOfRange` for index 0; otherwise the camera keeps the first keyboard and mouse and starts at yaw -90, pitch 0, zoom 45 |
| Cameras.Camera.NewDefault | Entities/Camera.cs:36-39 | the default camera starts at (0, 0, 3) looking down -z with +y up |
| Cameras.Camera.OnWindowFocusChanged | Entities/Camera.cs:62-74 | in a release build losing focus forgets the last mouse position; nothing else changes |
| Cameras.Camera.Update | Entities/Camera.cs:76-106 | without a keyboard nothing moves; otherwise the position moves by the held keys' movement scaled by `deltaTime * 0.75`, and only the position changes |
| Cameras.Camera.Shift | Entities/Camera.cs:83-85 | one conditional update: the position moves by `k * v` exactly when the key is pressed |
| Cameras.Camera.OnMouseScroll | Entities/Camera.cs:108-110 | the zoom becomes `zoom - wheel.Y` clamped to `[1, 45]`, and stays valid; nothing else changes |
| Cameras.Camera.OnMouseMove | Entities/Camera.cs:112-134 | the first move only records the position; later moves add the x offset times 0.1 to the yaw, subtract the y offset times 0.1 from the pitch clamped to `[-89, 89]`, and point the front along the new angles |
| ObjectAttributes.WriteAll | Entities/Attributes/SimpleMaterial.cs:7-12 | consecutive `SetUniform` calls: the state, calls and outcome of the uniform run of the writes |
| ObjectAttributes.WrittenCalls | Entities/Attributes/SimpleMaterial.cs:8-11 | a successful run issues, per write in order, its lookup and then its write to the location found |
| ObjectAttributes.Names | Entities/Attributes/LitByEmmisive.cs:20-25 | the uniform names of the writes, in order |
| ObjectAttributes.LastStored | Entities/Attributes/LitByEmmisive.cs:21-25 | after an accepted, successful run a uniform holds the value of the last write to its location |
| ObjectAttributes.AllStored | Entities/Attributes/SimpleMaterial.cs:7-12 | when the names resolve to distinct locations, every write's value is stored under its name |
| ObjectAttributes.NewLitByEmmisive | Entities/Attributes/LitByEmmisive.cs:10-13 | a null camera throws `ArgumentNull`; otherwise the attribute keeps the light position and the camera |
| ObjectAttributes.WriteToShader | Entities/Attributes/LitByEmmisive.cs:15-26 | an attribute writes its uniforms in the source's order, stopping at the first missing one |
| ObjectAttributes.LitColors | Entities/Attributes/LitByEmmisive.cs:16-18 | the diffuse colour is half the white light and the ambient colour a fifth of that: (0.5, 0.5, 0.5) and (0.1, 0.1, 0.1) |
| ObjectAttributes.LitOrder | Entities/Attributes/LitByEmmisive.cs:20-25 | a successful lit write issues 12 calls: six lookups in the source's order, the camera position first, and the light position written twice with the same call |
| ObjectAttributes.LitOrderOf | Entities/Attributes/LitByEmmisive.cs:20-25 | the same call order for any six writes with those names and a repeated light position |
| ObjectAttributes.LitOutcome | Entities/Attributes/LitByEmmisive.cs:20-25 | the lit write succeeds exactly when its five distinct names resolve, and otherwise fails naming the first that does not |
| ObjectAttributes.LitPosition | Entities/Attributes/LitByEmmisive.cs:21-25 | after an accepted lit write `light.position` holds the light position |
| ObjectAttributes.LitStores | Entities/Attributes/LitByEmmisive.cs:15-26 | with distinct locations each of the five uniforms holds its value: camera position, light position, ambient 0.1, diffuse 0.5, specular 1 |
| ObjectAttributes.SimpleMaterialStores | Entities/Attributes/SimpleMaterial.cs:7-12 | with distinct locations the material holds ambient and diffuse (1, 0.5, 0.31), specular (0.5, 0.5, 0.5) and shininess 32 |
| ObjectAttributes.SpecularUnitsMatch | Entities/Attributes/SpecularWithTextureMaterial.cs:7-9 | the material's diffuse and specular samplers name the units the lit cube's draw binds the diffuse and the specular maps to |
| ObjectAttributes.SpecularMaterialStores | Entities/Attributes/SpecularWithTextureMaterial.cs:6-11 | with distinct locations the material holds sampler units 0 and 1 and shininess 32 |
| SceneObjects.Checks | Entities/SceneObject.cs:15-19 | one presence check per required uniform, `uModel`, `uView` and `uProjection` in that order, each throwing the constructor's error |
| SceneObjects.Continued | Entities/SceneObject.cs:36-52 | after a successful prefix, the rest of a draw runs from the state reached, its calls following the prefix's |
| SceneObjects.SceneObject.WiredValid | Entities/SceneObject.cs:12-13 | a scene object is valid exactly when its context is and its mesh and program share that context |
| SceneObjects.SceneObject.Identity | Entities/ITransformationBehavior.cs:17-19 | `Result.Identity` carries the object's own position, scale and rotation |
| SceneObjects.SceneObject.New | Entities/SceneObject.cs:23-34 | a null mesh, then a null program, throws `ArgumentNull`; otherwise the required uniforms are checked in order, stopping at the first missing one, which throws; a built object starts at the origin with scale 1 and no rotation |
| SceneObjects.SceneObject.RunBehavior | Entities/Behaviors/ColorWithAmbientLightShaderArgs.cs:12-17 | the behaviour writes `objectColor`, `lightColor` and `lightPos` and returns the object's own transform |
| SceneObjects.SceneObject.Begin | Entities/SceneObject.cs:37-45 | use the program, then run the behaviour when there is one; the transform used is the behaviour's result or the object's own |
| SceneObjects.SceneObject.Draw | Entities/SceneObject.cs:36-52 | use, behaviour, `uModel`, `uView` and `uProjection` writes from the transform and the camera, then the mesh's draw, stopping at the first throw; the object's own transform is unchanged |
| SceneObjects.SceneObject.Finish | Entities/SceneObject.cs:47-51 | the three matrix writes and then the mesh's draw steps follow what has been done |
| SceneObjects.SceneObject.DisposeCalls | Entities/SceneObject.cs:54-57 | disposing issues four calls |
| SceneObjects.SceneObject.Dispose | Entities/SceneObject.cs:54-57 | deletes the program, then the mesh's element buffer, vertex buffer and vertex array; the new state is those four deletions applied in turn (`DisposeReleases`) |
| SceneObjects.SceneObject.DisposeReleases | Entities/SceneObject.cs:54-57 | disposal only releases names, and only the object's own four; all four go when the driver accepts every deletion, a refused one raises the error flag, and nothing else changes |
| SceneObjects.IdentityBehavior | Entities/Behaviors/ColorWithAmbientLightShaderArgs.cs:16 | a behaviour returning `Identity` yields the same model matrix as no behaviour |
| SceneObjects.ChecksOutcome | Entities/SceneObject.cs:29-33 | the checks change no state; they pass exactly when all three uniforms resolve, after three lookups; otherwise they throw after the lookups up to the first missing one |
| SceneObjects.ChecksGuardWrites | Entities/SceneObject.cs:29-49 | once the constructor's checks passed, the draw's three matrix writes cannot fail in any state with the same links |
| SceneObjects.SetsResolve | Entities/SceneObject.cs:47-49 | write steps go through exactly when each of their names resolves |
| SceneObjects.MatrixExpected | Entities/SceneObject.cs:47-49 | the matrix writes issue a lookup and a write per matrix |
| SceneObjects.DrawStepsCalls | Entities/SceneObject.cs:36-52 | a draw's calls are use, the behaviour's calls, the matrix calls, then the mesh's |
| SceneObjects.DrawStepsResolve | Entities/SceneObject.cs:36-52 | a draw's steps all resolve exactly when the behaviour's uniforms (if any), the three required uniforms and the mesh's uniforms do |
| SceneObjects.DrawStepsSucceeds | Entities/SceneObject.cs:36-52 | a draw succeeds exactly when those uniforms resolve, and then issues exactly those calls |
| SceneObjects.DrawStepsHarmless | Entities/SceneObject.cs:36-52 | a draw's steps change no program links, and nothing before the mesh's draw draws |
| SceneObjects.DrawStepsFailsDrawsNothing | Entities/SceneObject.cs:36-52 | a draw that throws issues no draw call |
| Scenes.RemoveAbsent | Entities/Scene.cs:22-24 | removing an object that is not in the list leaves the list as it is |
| Scenes.RemoveAt | Entities/Scene.cs:22-24 | removing an object drops exactly its first occurrence |
| Scenes.RemoveCounts | Entities/Scene.cs:22-24 | removal takes one occurrence out of the list's multiset when the object is present and nothing otherwise, shortening the list by one or zero |
| Scenes.ConcatAppend | Entities/Scene.cs:30-34 | the steps of two runs of objects, one after the other, are the steps of the joined runs |
| Scenes.ConcatFails | Entities/Scene.cs:30-34 | a failed scene draw stopped within some object `k`: every earlier object drew successfully and nothing after `k` ran |
| Scenes.ConcatNext | Entities/Scene.cs:31-33 | the steps of the first `i + 1` objects are those of the first `i` followed by object `i`'s |
| Scenes.ConcatStops | Entities/Scene.cs:31-33 | once an object's draw throws, the scene draw ends as it stood after that object |
| Scenes.Parts | Entities/Scene.cs:31-33 | one part per object, in order, each being that object's draw steps with the scene's camera |
| Scenes.DisposeOrder | Entities/Scene.cs:36-40 | disposing issues four calls per object, in the order of the list, each block being that object's disposal |
| Scenes.Scene.New | Entities/Scene.cs:7-11 | a null camera throws `ArgumentNull`; otherwise the scene is empty |
| Scenes.Scene.Add | Entities/Scene.cs:15-20 | a null object throws `ArgumentNull` and changes nothing; otherwise it is appended and the count grows by one |
| Scenes.Scene.Remove | Entities/Scene.cs:22-24 | answers whether the object was in the list and drops its first occurrence; the count shrinks by one exactly when it answers true |
| Scenes.Scene.Clear | Entities/Scene.cs:26-28 | the list becomes empty |
| Scenes.Scene.Draw | Entities/Scene.cs:30-34 | draws each object in list order with the scene's camera, stopping at the first throw |
| Scenes.Scene.Dispose | Entities/Scene.cs:36-40 | disposes each object in list order; the new state is all those deletions applied in turn (`DisposeAllReleases`) |
| Scenes.DisposeAllReleases | Entities/Scene.cs:36-40 | disposing the list only releases names of its objects; all of them go when the driver accepts every deletion, a refused one raises the error flag, and nothing else changes |
| MeshData.ReadVertices | Meshes/Model.cs:53-90 | the vertex loop fills a new array with one vertex per imported position, which is `Vertices` of the mesh |
| MeshData.Vertices | Meshes/Model.cs:56-90 | vertex `i` has position `i`, normal `i` when the mesh has normals and texture coordinate `i` of the first set when it has one |
| MeshData.VerticesUniform | Meshes/Model.cs:62-69 | the vertices of one mesh all have the same optional parts, as the packing assumes |
| MeshData.Padded | Meshes/Model.cs:94-96 | a face of at most three indices fills its three slots in order, the unused slots keeping the array's default 0 |
| MeshData.Flattened | Meshes/Model.cs:54 | the index array has three slots per face |
| MeshData.FlattenedAt | Meshes/Model.cs:92-97 | slot `3 * i + j` holds index `j` of face `i` when the face has one, and 0 otherwise |
| MeshData.FlattenIndices | Meshes/Model.cs:92-97 | the nested face loop fills a new array that is `Flattened` of the faces |
| MeshData.LayoutTiles | Meshes/Model.cs:147-169 | a position of 3 at offset 0, a normal of 3 at offset 3 exactly when there is one, texture coordinates of 2 at 6 or 3 exactly when there are some; together they tile the stride 3, 6, 5 or 8 |
| MeshData.CoversBelowStride | Meshes/Model.cs:174-189 | a vertex writes exactly the slots below its stride |
| MeshData.Packed | Meshes/Model.cs:171 | the packed array holds the first vertex's stride for each vertex |
| MeshData.UniformFits | Meshes/Model.cs:149 | vertices that share their optional parts all fit in the first vertex's stride |
| MeshData.SlotOfOwner | Meshes/Model.cs:172-190 | when vertex `i` writes slot `k` of its block, that slot ends holding its component |
| MeshData.PackedReadsBack | Meshes/Model.cs:171-190 | for a uniform mesh, reading slot `k` of vertex `i`'s block gives back that vertex's component `k`: position, then normal, then texture coordinates |
| MeshData.WriteVertex | Meshes/Model.cs:175-189 | one vertex's writes: exactly the slots it covers, from its block's base, take its components and every other slot is unchanged |
| MeshData.BuildMeshData | Meshes/Model.cs:146-193 | it succeeds exactly when there is a first vertex and every vertex fits the first one's stride (otherwise an index error, as the C# array access throws); the data is `Packed` and the attributes are `Layout` of the first vertex |
| Models.PreorderMembers | Meshes/Model.cs:40-50 | a mesh is visited from a node exactly when the node lists it or it is visited from one of its children |
| Models.ChildrenMembers | Meshes/Model.cs:46-49 | a mesh is visited by the first `k` children exactly when one of them visits it |
| Models.PreorderBlocks | Meshes/Model.cs:40-50 | a node's visit order starts with its own meshes, followed by each child's whole visit order as a contiguous block, children in order |
| Models.ChildrenPrefix | Meshes/Model.cs:46-49 | visiting more children only extends the order already produced |
| Models.PreorderRefs | Meshes/Model.cs:42 | in a consistent scene every mesh index a traversal visits is in range |
| Models.ChildrenRefs | Meshes/Model.cs:46-49 | the same for the first `k` children |
| Models.ResolveTexturePath | Meshes/Model.cs:195-214 | a fully qualified path is kept, any other is placed under `<cwd>/Assets/`; the result exists on disk, and a path that does not resolve to an existing file throws naming the texture |
| Models.ResolveIdempotent | Meshes/Model.cs:200-214 | resolving a resolved path again gives the same path |
| Models.MatchesAppend | Meshes/Model.cs:40-50 | meshes built for two runs of mesh indices, one after the other, are the meshes built for the joined runs |
| Models.Model.New | Meshes/Model.cs:18-27 | a null or empty path throws `ArgumentInvalid`, and a scene the importer rejects throws naming the path, both with the GL state and calls unchanged; the model is built exactly when `LoadModel` (import, then every mesh of the pre-order walk with its material's textures) goes through; then the GL state, the calls and the cache paths are those `LoadModel` gives, and the model is valid and holds one data mesh per mesh reference of the scene, in traversal order, each describing that mesh |
| Models.Model.LoadModelData | Meshes/Model.cs:29-38 | an import that is null, has no root node or is flagged incomplete throws naming the path, with the state, calls, meshes and cache unchanged; otherwise it passes exactly when loading every mesh of the root's pre-order walk does, leaving the state, calls and cache the walk gives and meshes describing the walk (`LoadMeshes`, `LoadMesh` and `LoadPaths` are the reference walk) |
| Models.Model.VisitNode | Meshes/Model.cs:40-50 | passes exactly when the node's pre-order walk loads, then leaves that walk's state, calls and cache and has appended, in traversal order, one data mesh describing each mesh of the walk |
| Models.Model.VisitOwnMeshes | Meshes/Model.cs:41-44 | passes exactly when the node's own meshes load in turn, leaving that state, calls and cache, with one data mesh per listed mesh, in its order |
| Models.Model.VisitOwnMesh | Meshes/Model.cs:42-43 | one pass of the first loop: the walk extends by mesh `idx[i]` when it loads, and otherwise the walk over all of `idx` fails |
| Models.Model.VisitChildren | Meshes/Model.cs:46-49 | passes exactly when the children's walks load one after the other, leaving that state, calls and cache, with each child's meshes appended in turn |
| Models.Model.VisitChild | Meshes/Model.cs:47-48 | one child's walk extends the children walked so far by one; when it fails the walk over all the children fails |
| Models.Model.VisitMesh | Meshes/Model.cs:52-114 | passes exactly when `LoadMesh` does: the four texture lists load and the mesh has vertices; then it appends one data mesh whose floats and attributes are the packed vertices and their layout and whose texture is the first diffuse texture when the material has one, loaded from that texture's resolved path; a failure appends nothing |
| Models.Model.AppendMesh | Meshes/Model.cs:111-113 | the packing passes exactly when the mesh has vertices; then one data mesh describing the imported mesh, with the first diffuse texture, is appended, and otherwise nothing is |
| Models.Model.LoadTextures | Meshes/Model.cs:99-103 | the four material texture lists are loaded in order (diffuse, specular, normals, height) and it succeeds exactly when `LoadMaterial` does, leaving its state, calls and cache; the diffuse list is returned and its first texture is cached under its resolved path |
| Models.Model.LoadOtherTextures | Meshes/Model.cs:101-103 | the specular, normal and height lists load in turn; it passes exactly when `LoadOthers` does, leaving its state, calls and cache |
| Models.Model.FindCached | Meshes/Model.cs:130 | the first cached texture whose path equals the given one, or null when none does |
| Models.Model.LoadTexture | Meshes/Model.cs:136 | succeeds exactly when the file at the resolved path loads; then a fresh texture remembering that path, with the file load's state and calls; otherwise the image load's error or `GLCallFailed` |
| Models.Model.LoadMaterialTextures | Meshes/Model.cs:118-142 | one texture per material texture of the type, in order, each for its resolved path: a cached one when the cache holds that path and otherwise a new one, which is added to the cache; it succeeds exactly when `LoadPaths` does, leaving its state, calls and cache; a texture that cannot be resolved or loaded throws |
| Models.Model.LoadNext | Meshes/Model.cs:125-139 | one turn of the texture loop extends the textures listed so far by the path's texture; a failed turn fails the whole list |
| Models.Model.LoadListed | Meshes/Model.cs:129-138 | one path: resolved, then the cached texture for it or a new one appended to the cache; it succeeds exactly when `LoadPath` does, leaving its state, calls and cache; a failure is the resolution's, the image load's or `GLCallFailed` |
| Models.Model.LoadIntoCache | Meshes/Model.cs:136-137 | the miss branch: succeeds exactly when the file loads; then the new texture is appended to the cache with the file load's state and calls; a failure leaves the cache as it was |
| Models.CachePaths | Meshes/Model.cs:130 | the cache's paths, in cache order |
| Models.DistinctPathsApart | Meshes/Model.cs:130-137 | in a cache built this way two different slots never hold the same path |
| Models.CacheSlots | Meshes/Model.cs:130-138 | a texture taken from the cache was there before the loop exactly when a texture of the old cache had its path |
| Models.LoadPathsStopped | Meshes/Model.cs:125-139 | once a path has failed, later paths do nothing |
| Models.LoadPathsAppend | Meshes/Model.cs:125-139 | loading two path lists in turn is loading their concatenation |
| Models.LoadPathsFailsEarly | Meshes/Model.cs:125-139 | a list whose first `k` paths fail fails as a whole |
| Models.LoadOthersStopped | Meshes/Model.cs:101-103 | after a failed diffuse list the other lists do nothing |
| Models.LoadMeshesStopped | Meshes/Model.cs:40-50 | once a mesh has failed, later meshes do nothing |
| Models.LoadMeshesAppend | Meshes/Model.cs:40-50 | walking two mesh runs in turn is walking their concatenation |
| Models.LoadMeshesFailsEarly | Meshes/Model.cs:40-50 | a walk whose first `k` meshes fail fails as a whole |
| Models.WalkedOne | Meshes/Model.cs:41-44 | one more mesh of a walk: its data mesh extends the meshes built, and the walk's progress is that mesh's load from where the walk stood |
| Models.WalkStops | Meshes/Model.cs:41-44 | a mesh of the walk that fails to load fails the whole walk |
| Models.ChildrenFailEarly | Meshes/Model.cs:46-49 | a child whose walk fails fails the walk over all the children |
| Services.RegisteredIffNamed | GLAbstractions/EngineContainer.cs:8-19 | a type is registered exactly when some registration since the last `Dispose` names it |
| Services.LastRegistrationWins | GLAbstractions/EngineContainer.cs:14 | the latest registration for a type decides what it maps to, whatever came before |
| Services.Instances | GLAbstractions/EngineContainer.cs:8-19 | the instances registered, one per registration, in order |
| Services.TrackedCounts | GLAbstractions/EngineContainer.cs:15-17 | the disposables list holds every registration of a disposable instance, even one that replaced an earlier registration, and nothing else |
| Services.EngineContainer.constructor | GLAbstractions/EngineContainer.cs:5-6 | a new container has no services and no disposables |
| Services.EngineContainer.RegisterSingleton | GLAbstractions/EngineContainer.cs:8-19 | a null instance throws `ArgumentNull` and changes nothing; otherwise the instance replaces any earlier one for its type, and is appended to the disposables when it is disposable |
| Services.EngineContainer.Get | GLAbstractions/EngineContainer.cs:21-29 | succeeds exactly when the type was registered, with the latest instance registered for it; otherwise throws naming the type |
| Services.EngineContainer.TryGet | GLAbstractions/EngineContainer.cs:31-41 | answers whether the type was registered, with its latest instance, and the default value otherwise |
| Services.EngineContainer.Dispose | GLAbstractions/EngineContainer.cs:43-52 | disposes exactly the tracked disposables list, entry by entry in registration order (an instance registered twice is disposed twice), then empties both collections |

## Left out

- The GL model has a single context. Every wrapper is assumed to share the same `GLState`,
  which `Scene.Shares` states.
- Driver behaviour beyond the rules the engine relies on is out of scope: shader compilation
  and linking success are oracle inputs, and so are pixel formats and sampling.
- `GLErrorDetector.EnableDebugOutput` is a logging callback and is not modelled.
- All `Console.WriteLine` tracing is not modelled. This includes the tagger's log line of the
  untruncated tag.
- Matrices, quaternions and `SceneObject.BuildModelMatrix` are uninterpreted values. They are
  floating-point, and `TransformationMath` is not part of this model.
- Camera's view and projection matrices (`ViewMatrix`, `ProjectionMatrix`) are symbolic
  `LookAt` and `PerspectiveFieldOfView` values of `Values`; their entries are not computed.
- Camera's front-vector trigonometry and normalisation are parameters (`direction`,
  `normalize`).
  Float rounding is not modelled: the arithmetic is over `real`.
- Camera's event unsubscription in `Dispose` and the cursor-mode switch are not modelled.
- `Cameras.Camera.ProjectionMatrix` reads the window size that `Cameras.Camera.New` was given
  (`window` is a `const` snapshot). The source reads `window.Size` on every access, so a resized
  window changes its aspect ratio there but not in the model.
- `Cameras.Camera.New`: the input context's devices are never null, so the handlers are always
  subscribed. The source subscribes `FocusChanged`, `MouseMove` and `Scroll` only when
  `Mice[0]` is not null. Event subscription itself is not modelled; the handlers are methods
  that the caller invokes.
- `Cameras.Camera.New` takes the build kind as a flag (`releaseBuild`), because focus changes
  are handled only in release builds (`#if !DEBUG`).
- `Cameras.Camera.Update` takes `deltaTime` as a `real`. It takes the keyboard's answers as the
  set of held keys.
- `QuadWithColorData`'s `uBlue` value depends on the clock and a sine, so it is a parameter of
  `Draw`. `PulsatingBlueColor`, `ColorShiftToBlue` and `RotationOnXY` are not part of this
  model.
- `TexturedMeshes.CubeWithNormalsAndUV.Dispose` is empty in the source (neither texture is
  released). Its model is an empty method with no `modifies` clause, so Dafny's frame rules
  already say it changes nothing; it has no `ensures` and no row.
- `SpecularTexture` is a constant `null` function without a contract.
- `GL.NativeByteCount` follows C#'s default unchecked arithmetic, which both `ByteSize` and
  `UploadSize` use. A build with overflow checking on would throw `OverflowException` past 2^29
  elements instead; that build is not modelled.
- `Textures.UploadTexels`: the source's loop counter is an `int` that counts down from
  `Height - 1` to 0. The model counts uploaded rows with a `nat` and issues the same row calls
  in the same order; no overflow arises, since an image height fits an `int`.
- Image decoding and reading files (ImageSharp, shader source files) are oracles. The texture
  and shader loaders take the decoded image or the file text, or a failure.
- `PrepareForDrawing` is modelled only for `QuadWithTextureCoordinates`, the only mesh that
  defines it.
- `ObjectAttributes.LitStores`, `ObjectAttributes.SimpleMaterialStores` and
  `ObjectAttributes.SpecularMaterialStores` require the uniform names they write to have
  different locations (`Separate`). The driver guarantees this for active uniforms, but the
  GL model does not derive it.
- `Scenes.Scene.Draw` states its calls in terms of the objects' state before the loop. The
  deltaTime and absoluteTime arguments reach only attributes that ignore them, so they are not
  parameters.
- Model loading leaves several parts of the source out:
  - the tangent, bitangent and bone arrays of an imported mesh;
  - the error text of the importer;
  - the combined `textures` array and the index array, which `VisitMesh` builds and then
    discards, as the source does.
- The importer (Assimp) is an oracle value. Its guarantees are assumed, as stated by
  `Consistent`: child and mesh indices in range, and an acyclic node graph.
- `Models.ResolveTexturePath` follows POSIX path rules: a fully qualified path starts with `/`.
  The file-existence probe is an oracle set of existing paths.
- `Models.Model.LoadMaterialTextures`: on a texture load failure, the contract states only the
  failure. The cache contents at that point are not given.
- `Models.Model.New`: when a texture load or a mesh packing fails partway through the walk, the
  contract states only the failure. The GL state, the calls and the cache at that point are not
  given, because the reference walk (`LoadModel`) yields nothing for a walk that fails. A
  rejected path or import is stated in full: it leaves the state and the calls unchanged.
- `Models.Model.LoadModelData`: the same holds for a walk that fails partway.
- `EngineContainer` services are abstract values (`Service`). Disposing an instance is an
  effect on code outside the model, so `Services.EngineContainer.Dispose` returns the list of
  instances it disposes, in order.
- Generic type parameters `T` are `ServiceType` values, compared by full name.

## Findings

| source | as written | input that shows it | evidently intended | confidence | as-written member | corrected member |
|---|---|---|---|---|---|---|
| DebugUtils/GLAssetTagger.cs:9-10 | a tag of `maxLength` characters or more is cut to exactly `maxLength` characters | any tag of length ≥ GL_MAX_LABEL_LENGTH, such as 300 characters with a maximum of 256 | glObjectLabel requires a length below GL_MAX_LABEL_LENGTH (section 20.9 of the OpenGL 4.6 core specification), so the cut should keep at most `maxLength - 1` characters; as written, the label call raises GL_INVALID_VALUE and the tagger throws | not executed | AssetTagger.LimitTagRefusedAtLimit | AssetTagger.FitTagAccepted |
| Meshes/QuadWithTextureCoordinates.cs:17 | the UV attribute is declared as 4 floats at offset 3 in a 5-float vertex | the last vertex: its UV read covers floats 18..21 of a 20-float array | 2 floats at offset 3, as the comment and the vertex table say | not executed | MeshTables.TexturedQuadOverflows | MeshTables.TexturedQuadAttributes |

The rest of the model follows the code as written in both cases. `Simple2DTexture.FromImage`
tags through `TagAsset` with the cut of the first row, so it throws for every debug name at
least as long as the maximum (`Textures.FromImageRefusesLongNames`). A buffered textured quad
uses the declared layout, so its second pointer call reads 4 floats
(`BufferedMeshes.TexturedQuadPointsFourFloats`). The corrected definitions are proved alongside
and nothing else depends on them.
