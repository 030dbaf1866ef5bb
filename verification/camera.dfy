/** `Camera` (Entities/Camera.cs): a fly-through camera moved by the keyboard, turned by the
    mouse and zoomed by the scroll wheel. Vector arithmetic is on reals; the square root behind
    `Vector3.Normalize` and the trigonometry behind the front vector are passed in as functions. */
module Cameras {
  import opened Values

  const LookSensitivity: real := 0.1
  const MoveSpeed: real := 0.75
  const MinZoom: real := 1.0
  const MaxZoom: real := 45.0
  const MaxPitch: real := 89.0

  /** An input device as the input context lists it; `Vacant` is a null entry. */
  datatype Device = Vacant | Attached(name: string)

  /** What the camera takes from `IInputContext`: its keyboards and mice, in order. */
  datatype InputContext = InputContext(keyboards: seq<Device>, mice: seq<Device>)

  /** What the camera takes from `IWindow`: its size in pixels. */
  datatype Window = Window(width: int, height: int)

  datatype Key = W | S | A | D | Space | ControlLeft

  /** `Math.Clamp(value, min, max)`. */
  function Clamp(value: real, min: real, max: real): (r: real)
    requires min <= max
    ensures min <= r <= max
    ensures min <= value <= max ==> r == value
    ensures value < min ==> r == min
    ensures max < value ==> r == max
  {
    if value < min then min else if max < value then max else value
  }

  /** What one key adds to the position when it is held: `k` times `v`. */
  function Contribution(pressed: bool, k: real, v: Vec3): Vec3 {
    if pressed then Times(k, v) else Zero3
  }

  /** The displacement for one `Update`: forward and back along the front vector for W and S,
      left and right along the right vector for A and D, up and down along the up vector for
      Space and ControlLeft, each by `d`. */
  function Movement(held: set<Key>, d: real, front: Vec3, right: Vec3, up: Vec3): Vec3 {
    var forward := Plus(Contribution(W in held, d, front), Contribution(S in held, -d, front));
    var sideways := Plus(Contribution(A in held, -d, right), Contribution(D in held, d, right));
    var vertical := Plus(Contribution(Space in held, d, up), Contribution(ControlLeft in held, -d, up));
    Plus(Plus(forward, sideways), vertical)
  }

  /** Holding both keys of an opposing pair moves the camera as holding neither does. */
  lemma OppositeKeysCancel(d: real, v: Vec3)
    ensures Plus(Contribution(true, d, v), Contribution(true, -d, v)) == Plus(Contribution(false, d, v), Contribution(false, -d, v)) == Zero3
  {
  }

  /** One key alone moves the camera by `d` along its own direction and no other. */
  lemma SingleKey(d: real, front: Vec3, right: Vec3, up: Vec3)
    ensures Movement({W}, d, front, right, up) == Times(d, front)
    ensures Movement({S}, d, front, right, up) == Times(-d, front)
    ensures Movement({D}, d, front, right, up) == Times(d, right)
    ensures Movement({A}, d, front, right, up) == Times(-d, right)
    ensures Movement({Space}, d, front, right, up) == Times(d, up)
    ensures Movement({ControlLeft}, d, front, right, up) == Times(-d, up)
  {
  }

  class Camera {
    var position: Vec3
    var up: Vec3
    var front: Vec3
    var yaw: real
    var pitch: real
    var zoom: real
    var lastMousePosition: Vec2
    const window: Window
    const keyboard: Device
    const mouse: Device
    /** Whether the build is a release build (`#if !DEBUG`), where focus changes are handled. */
    const releaseBuild: bool

    /** Zoom stays within [1, 45] and pitch within [-89, 89]. */
    predicate Valid()
      reads this
    {
      MinZoom <= zoom <= MaxZoom && -MaxPitch <= pitch <= MaxPitch
    }

    function ViewMatrix(): Mat4
      reads this
    {
      LookAt(position, Plus(position, front), up)
    }

    /** The field of view is the zoom in degrees; the aspect ratio is the window's. */
    function ProjectionMatrix(): Mat4
      reads this
    {
      PerspectiveFieldOfView(zoom, window.width, window.height, 0.1, 100.0)
    }

    constructor Wrap(window: Window, keyboard: Device, mouse: Device, position: Vec3, up: Vec3, front: Vec3, releaseBuild: bool)
      ensures Valid()
      ensures this.window == window && this.keyboard == keyboard && this.mouse == mouse && this.releaseBuild == releaseBuild
      ensures this.position == position && this.up == up && this.front == front
      ensures yaw == -90.0 && pitch == 0.0 && zoom == 45.0 && lastMousePosition == Vec2(0.0, 0.0)
    {
      this.window := window;
      this.keyboard := keyboard;
      this.mouse := mouse;
      this.releaseBuild := releaseBuild;
      this.position := position;
      this.up := up;
      this.front := front;
      yaw := -90.0;
      pitch := 0.0;
      zoom := 45.0;
      lastMousePosition := Vec2(0.0, 0.0);
    }

    /** `new Camera(window, input, position, up, front)`: a null window throws; the first
        keyboard and the first mouse are taken from the input context, whose list indexer
        throws on an empty list. */
    static method New(window: Option<Window>, input: InputContext, position: Vec3, up: Vec3, front: Vec3, releaseBuild: bool) returns (r: Result<Camera>)
      ensures r.Failure? <==> window.None? || input.keyboards == [] || input.mice == []
      ensures r.Failure? ==> r.error == if window.None? then ArgumentNull("window") else ArgumentOutOfRange("index")
      ensures r.Success? ==>
                && fresh(r.value) && r.value.Valid()
                && r.value.window == window.value && r.value.keyboard == input.keyboards[0] && r.value.mouse == input.mice[0]
                && r.value.position == position && r.value.up == up && r.value.front == front
                && r.value.yaw == -90.0 && r.value.pitch == 0.0 && r.value.zoom == 45.0
    {
      if window.None? {
        return Failure(ArgumentNull("window"));
      }
      if input.keyboards == [] || input.mice == [] {
        return Failure(ArgumentOutOfRange("index"));
      }
      var camera := new Camera.Wrap(window.value, input.keyboards[0], input.mice[0], position, up, front, releaseBuild);
      return Success(camera);
    }

    /** `new Camera(window, input)`: three units back from the origin, looking down -Z with +Y up. */
    static method NewDefault(window: Option<Window>, input: InputContext, releaseBuild: bool) returns (r: Result<Camera>)
      ensures r.Failure? <==> window.None? || input.keyboards == [] || input.mice == []
      ensures r.Success? ==>
                && fresh(r.value) && r.value.Valid()
                && r.value.position == Vec3(0.0, 0.0, 3.0) && r.value.up == UnitY && r.value.front == Vec3(0.0, 0.0, -1.0)
                && r.value.yaw == -90.0 && r.value.pitch == 0.0 && r.value.zoom == 45.0
    {
      r := New(window, input, Vec3(0.0, 0.0, 3.0), UnitY, Vec3(0.0, 0.0, -1.0), releaseBuild);
    }

    /** `OnWindowFocusChanged`: in a release build, losing focus forgets the last mouse position,
        so the next move only records a new baseline. */
    method OnWindowFocusChanged(isFocused: bool)
      modifies this
      ensures lastMousePosition == if releaseBuild && !isFocused then Vec2(0.0, 0.0) else old(lastMousePosition)
      ensures position == old(position) && front == old(front) && up == old(up)
      ensures yaw == old(yaw) && pitch == old(pitch) && zoom == old(zoom)
    {
      if releaseBuild && !isFocused {
        lastMousePosition := Vec2(0.0, 0.0);
      }
    }

    /** `Update(deltaTime)`: without a keyboard nothing moves; otherwise each held key moves
        the position by `deltaTime * 0.75` along the front, right (the normalized cross product
        of front and up) or up vector. `held` is what `IsKeyPressed` answers. */
    method Update(deltaTime: real, held: set<Key>, normalize: Vec3 -> Vec3)
      modifies this
      ensures position == if keyboard.Vacant? then old(position)
                          else Plus(old(position), Movement(held, deltaTime * MoveSpeed, front, normalize(Cross(front, up)), up))
      ensures front == old(front) && up == old(up) && yaw == old(yaw) && pitch == old(pitch) && zoom == old(zoom)
      ensures lastMousePosition == old(lastMousePosition)
    {
      var displacement := deltaTime * MoveSpeed;
      if keyboard.Vacant? {
        return;
      }
      var right := normalize(Cross(front, up));
      Shift(W in held, displacement, front);
      Shift(S in held, -displacement, front);
      Shift(A in held, -displacement, right);
      Shift(D in held, displacement, right);
      Shift(Space in held, displacement, up);
      Shift(ControlLeft in held, -displacement, up);
      SixShifts(old(position), held, displacement, front, right, up);
    }

    /** One key's move in `Update`: by `k` times `v` when the key is held. */
    method Shift(pressed: bool, k: real, v: Vec3)
      modifies this
      ensures position == Plus(old(position), Contribution(pressed, k, v))
      ensures front == old(front) && up == old(up) && yaw == old(yaw) && pitch == old(pitch) && zoom == old(zoom)
      ensures lastMousePosition == old(lastMousePosition)
    {
      if pressed {
        position := Plus(position, Times(k, v));
      }
    }

    /** `OnMouseScroll`: the zoom moves against the wheel and stays within [1, 45]. */
    method OnMouseScroll(wheelY: real)
      requires Valid()
      modifies this
      ensures Valid()
      ensures zoom == Clamp(old(zoom) - wheelY, MinZoom, MaxZoom)
      ensures position == old(position) && front == old(front) && up == old(up)
      ensures yaw == old(yaw) && pitch == old(pitch) && lastMousePosition == old(lastMousePosition)
    {
      zoom := Clamp(zoom - wheelY, MinZoom, MaxZoom);
    }

    /** `OnMouseMove`: the first move after a reset only records the baseline; later moves turn
        the camera by a tenth of the offset (yaw to the right, pitch up for upward moves, pitch
        kept within [-89, 89]) and point the front vector along the new angles. `direction`
        stands for the trigonometry that turns yaw and pitch into a direction. */
    method OnMouseMove(mousePosition: Vec2, direction: (real, real) -> Vec3, normalize: Vec3 -> Vec3)
      requires Valid()
      modifies this
      ensures Valid()
      ensures lastMousePosition == mousePosition
      ensures old(lastMousePosition) == Vec2(0.0, 0.0) ==> yaw == old(yaw) && pitch == old(pitch) && front == old(front)
      ensures old(lastMousePosition) != Vec2(0.0, 0.0) ==>
                && yaw == old(yaw) + (mousePosition.x - old(lastMousePosition).x) * LookSensitivity
                && pitch == Clamp(old(pitch) - (mousePosition.y - old(lastMousePosition).y) * LookSensitivity, -MaxPitch, MaxPitch)
                && front == normalize(direction(yaw, pitch))
      ensures position == old(position) && up == old(up) && zoom == old(zoom)
    {
      if lastMousePosition == Vec2(0.0, 0.0) {
        lastMousePosition := mousePosition;
        return;
      }
      var xOffset := (mousePosition.x - lastMousePosition.x) * LookSensitivity;
      var yOffset := (mousePosition.y - lastMousePosition.y) * LookSensitivity;
      lastMousePosition := mousePosition;
      yaw := yaw + xOffset;
      pitch := pitch - yOffset;
      pitch := Clamp(pitch, -MaxPitch, MaxPitch);
      front := normalize(direction(yaw, pitch));
    }
  }

  /** The six moves of `Update`, one after the other, add up to `Movement`. */
  lemma SixShifts(p: Vec3, held: set<Key>, d: real, front: Vec3, right: Vec3, up: Vec3)
    ensures var p1 := Plus(Plus(p, Contribution(W in held, d, front)), Contribution(S in held, -d, front));
            var p2 := Plus(Plus(p1, Contribution(A in held, -d, right)), Contribution(D in held, d, right));
            var p3 := Plus(Plus(p2, Contribution(Space in held, d, up)), Contribution(ControlLeft in held, -d, up));
            p3 == Plus(p, Movement(held, d, front, right, up))
  {
  }
}
