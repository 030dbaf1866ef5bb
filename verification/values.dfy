/** Value types shared by the whole engine model: failure wrappers, the .NET exceptions the engine
    throws, the System.Numerics vectors and quaternions (components as reals), symbolic matrices,
    image data and the on-disk assets the engine reads. */
module Values {

  datatype Option<+T> = None | Some(value: T)

  /** Why an InvalidOperationException was thrown: each case carries what the message names. */
  datatype Reason =
    | CompileFailed(stage: ShaderStage, filename: string, log: string)
    | LinkFailed(vertexFilename: string, fragmentFilename: string, log: string)
    | UniformMissing(uniform: string)
    | RequiredUniformsMissing
    | TransformationUniformMissing(meshType: string)
    | NullUpload
    | ModelLoadFailed(path: string)
    | TextureNotFound(texturePath: string)
    | ServiceNotRegistered(serviceType: string)

  /** The exceptions thrown by the core, by .NET class. */
  datatype Exn =
    | InvalidOperation(reason: Reason)
    | ArgumentNull(param: string)
    | ArgumentOutOfRange(param: string)
    | ArgumentInvalid(param: string)
    | IndexOutOfRange
    | GLCallFailed
    | FileNotFound(path: string)
    | ImageLoadFailed(path: string)

  datatype Outcome = Pass | Fail(error: Exn)

  datatype Result<+T> = Success(value: T) | Failure(error: Exn)

  datatype ShaderStage = VertexShader | FragmentShader

  type Handle = nat

  newtype Byte = x: int | 0 <= x < 256

  datatype Rgba32 = Rgba32(r: Byte, g: Byte, b: Byte, a: Byte)

  /** Pixel rows, top row first, with their declared size. */
  datatype Bitmap = Bitmap(width: nat, height: nat, rows: seq<seq<Rgba32>>)
  {
    predicate Rectangular() {
      |rows| == height && forall y :: 0 <= y < height ==> |rows[y]| == width
    }
  }

  /** A decoded `Image<Rgba32>`: `rows[y]` is pixel row y, each `width` pixels long. */
  type Image = b: Bitmap | b.Rectangular() witness Bitmap(0, 0, [])

  datatype Vec2 = Vec2(x: real, y: real)

  datatype Vec3 = Vec3(x: real, y: real, z: real)

  const Zero3 := Vec3(0.0, 0.0, 0.0)
  const One3 := Vec3(1.0, 1.0, 1.0)
  const UnitY := Vec3(0.0, 1.0, 0.0)

  function Plus(a: Vec3, b: Vec3): Vec3 { Vec3(a.x + b.x, a.y + b.y, a.z + b.z) }

  function Minus(a: Vec3, b: Vec3): Vec3 { Vec3(a.x - b.x, a.y - b.y, a.z - b.z) }

  function Times(k: real, v: Vec3): Vec3 { Vec3(k * v.x, k * v.y, k * v.z) }

  /** Component-wise product, as `Vector3 * Vector3`. */
  function Hadamard(a: Vec3, b: Vec3): Vec3 { Vec3(a.x * b.x, a.y * b.y, a.z * b.z) }

  function Cross(a: Vec3, b: Vec3): Vec3 {
    Vec3(a.y * b.z - a.z * b.y, a.z * b.x - a.x * b.z, a.x * b.y - a.y * b.x)
  }

  datatype Quat = Quat(x: real, y: real, z: real, w: real)

  const IdentityRotation := Quat(0.0, 0.0, 0.0, 1.0)

  /** 4x4 matrices are kept symbolic: each case is one System.Numerics factory, so two matrices
      are equal exactly when they were built the same way from equal arguments. */
  datatype Mat4 =
    | IdentityMatrix
    | FromQuaternion(q: Quat)
    | ScaleMatrix(s: real)
    | TranslationMatrix(t: Vec3)
    | Product(left: Mat4, right: Mat4)
    | LookAt(eye: Vec3, target: Vec3, up: Vec3)
    | PerspectiveFieldOfView(fovDegrees: real, viewportWidth: int, viewportHeight: int, near: real, far: real)
    | RotationXY(absoluteTime: real)

  /** A value written to a shader uniform. */
  datatype UniformValue = IntUniform(i: int) | FloatUniform(f: real) | Vec3Uniform(v: Vec3) | MatrixUniform(m: Mat4)

  /** The files the engine reads: text files (shader sources), decodable images, and the set of
      paths that exist at all. `cwd` is the process's current directory. */
  datatype Disk = Disk(cwd: string, textFiles: map<string, string>, images: map<string, Image>, existing: set<string>)

  /** `Image.Load<Rgba32>(path)`: the decoded image, or the exception for a missing file or one
      that does not decode. */
  function LoadImage(disk: Disk, path: string): Result<Image> {
    if path in disk.images then Success(disk.images[path])
    else if path in disk.existing then Failure(ImageLoadFailed(path))
    else Failure(FileNotFound(path))
  }

  /** `File.ReadAllText(path)`. */
  function ReadAllText(disk: Disk, path: string): Result<string> {
    if path in disk.textFiles then Success(disk.textFiles[path]) else Failure(FileNotFound(path))
  }

  /** `Path.Combine` for relative segments on a POSIX file system. */
  function Combine(dir: string, name: string): (p: string)
    ensures |p| == |dir| + 1 + |name|
    ensures p[..|dir|] == dir && p[|dir|] == '/' && p[|dir| + 1..] == name
  {
    dir + "/" + name
  }

  // Calls are logged one at a time; these regroup a run of single appends into one literal.

  /** Regroups a log extended piece by piece into the log plus the pieces' concatenation. */
  lemma Regrouped<X>(t: seq<X>, a: seq<X>, b: seq<X>, c: seq<X>, d: seq<X>)
    ensures t + a + b + c + d == t + (a + b + c + d)
    ensures t + a + b + c + d == t + (a + b + (c + d))
    ensures t + a + b + c == t + (a + b + c)
    ensures t + a + b == t + (a + b)
  {
  }

  /** Concatenation regrouped: stated once, so that callers need not prove it by extensionality. */
  lemma SeqAssociates<T>(a: seq<T>, b: seq<T>, c: seq<T>)
    ensures a + b + c == a + (b + c)
  {
  }

  lemma Appended2<X>(t: seq<X>, a: X, b: X)
    ensures t + [a] + [b] == t + [a, b]
  {
  }

  lemma Appended3<X>(t: seq<X>, a: X, b: X, c: X)
    ensures t + [a] + [b] + [c] == t + [a, b, c]
  {
  }

  lemma Appended4<X>(t: seq<X>, a: X, b: X, c: X, d: X)
    ensures t + [a] + [b] + [c] + [d] == t + [a, b, c, d]
  {
  }

  lemma Appended5<X>(t: seq<X>, a: X, b: X, c: X, d: X, e: X)
    ensures t + [a] + [b] + [c] + [d] + [e] == t + [a, b, c, d, e]
  {
  }
}
