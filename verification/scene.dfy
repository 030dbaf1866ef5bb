/** `Scene` (Entities/Scene.cs): an ordered list of scene objects drawn, and disposed, in the
    order they were added, all with the scene's camera. */
module Scenes {
  import opened Values
  import opened GL
  import opened Uniforms
  import opened Actions
  import opened Drawing
  import opened Cameras
  import opened TexturedMeshes
  import opened BufferedMeshes
  import opened SceneObjects

  /** `List.Remove`: the list without the first element equal to `x`; unchanged without one. */
  function RemoveFirst<T(==)>(s: seq<T>, x: T): seq<T> {
    if s == [] then []
    else if s[0] == x then s[1..]
    else [s[0]] + RemoveFirst(s[1..], x)
  }

  /** Without `x` in the list, nothing is removed. */
  lemma {:induction false} RemoveAbsent<T>(s: seq<T>, x: T)
    requires x !in s
    ensures RemoveFirst(s, x) == s
  {
    if s != [] {
      assert s == [s[0]] + s[1..];
      RemoveAbsent(s[1..], x);
    }
  }

  /** With `x` first at `i`, exactly position `i` goes: the elements before it and after it stay,
      in order. */
  lemma {:induction false} RemoveAt<T>(s: seq<T>, x: T, i: nat)
    requires i < |s| && s[i] == x && x !in s[..i]
    ensures RemoveFirst(s, x) == s[..i] + s[i + 1..]
  {
    if i > 0 {
      assert s[0] != x by { assert s[0] == s[..i][0]; }
      assert s[1..][..i - 1] == s[1..i];
      assert x !in s[1..][..i - 1] by { assert forall k :: 1 <= k < i ==> s[k] == s[..i][k]; }
      RemoveAt(s[1..], x, i - 1);
      assert [s[0]] + s[1..][..i - 1] == s[..i];
      assert s[1..][i..] == s[i + 1..];
    }
  }

  /** Removing takes out one occurrence of `x` when there is one and none otherwise, and keeps
      every other element. */
  lemma {:induction false} RemoveCounts<T>(s: seq<T>, x: T)
    ensures multiset(RemoveFirst(s, x)) == multiset(s) - multiset{x}
    ensures |RemoveFirst(s, x)| == if x in s then |s| - 1 else |s|
  {
    if s != [] {
      assert s == [s[0]] + s[1..];
      RemoveCounts(s[1..], x);
    }
  }

  /** The steps of `parts` one after the other. */
  function Concat(parts: seq<seq<Action>>): seq<Action>
    decreases |parts|
  {
    if parts == [] then [] else Concat(parts[..|parts| - 1]) + parts[|parts| - 1]
  }

  /** Running two lists of parts in turn is running their concatenation. */
  lemma {:induction false} ConcatAppend(a: seq<seq<Action>>, b: seq<seq<Action>>)
    ensures Concat(a + b) == Concat(a) + Concat(b)
    decreases |b|
  {
    if b == [] {
      assert a + b == a;
    } else {
      var front := b[..|b| - 1];
      assert (a + b)[..|a + b| - 1] == a + front;
      ConcatAppend(a, front);
    }
  }

  /** A run of parts that fails stops in part `k`: every part before it ran completely, and
      none after it runs at all. */
  lemma {:induction false} ConcatFails(d: Issued<()>, parts: seq<seq<Action>>) returns (k: nat)
    requires Run(d, Concat(parts)).result.Failure? && d.result.Success?
    ensures k < |parts|
    ensures Run(d, Concat(parts[..k])).result.Success?
    ensures Run(d, Concat(parts[..k + 1])) == Run(d, Concat(parts))
    decreases |parts|
  {
    var front := parts[..|parts| - 1];
    assert parts[..|parts|] == parts;
    if Run(d, Concat(front)).result.Failure? {
      k := ConcatFails(d, front);
      assert front[..k] == parts[..k] && front[..k + 1] == parts[..k + 1];
      StoppedAt(d, Concat(front), parts[|parts| - 1]);
    } else {
      k := |parts| - 1;
    }
  }

  lemma ConcatNext(parts: seq<seq<Action>>, i: nat)
    requires i < |parts|
    ensures Concat(parts[..i + 1]) == Concat(parts[..i]) + parts[i]
  {
    assert parts[..i + 1][..i] == parts[..i];
  }

  /** Once part `i` failed, the later parts change nothing. */
  lemma ConcatStops(d: Issued<()>, parts: seq<seq<Action>>, i: nat)
    requires i < |parts| && Run(d, Concat(parts[..i + 1])).result.Failure?
    ensures Run(d, Concat(parts)) == Run(d, Concat(parts[..i + 1]))
  {
    StoppedAt(d, Concat(parts[..i + 1]), Concat(parts[i + 1..]));
    ConcatAppend(parts[..i + 1], parts[i + 1..]);
    assert parts[..i + 1] + parts[i + 1..] == parts;
  }

  /** The textured quads among the meshes of `objs`, whose transform their draw reads. */
  function Quads(objs: seq<SceneObject>): set<QuadWithTextureCoordinates> {
    set o | o in objs && o.mesh.source.TexturedQuadSource? :: o.mesh.source.quad
  }

  /** The steps of drawing each of `objs` with `camera`, one entry per object. */
  function Parts(objs: seq<SceneObject>, camera: Camera): (ps: seq<seq<Action>>)
    reads objs, camera, Quads(objs)
    ensures |ps| == |objs| && forall i :: 0 <= i < |objs| ==> ps[i] == objs[i].Steps(camera)
  {
    seq(|objs|, i requires 0 <= i < |objs| reads objs, camera, Quads(objs) => objs[i].Steps(camera))
  }

  /** The calls of disposing `objs` one after the other. */
  function DisposeAll(objs: seq<SceneObject>): seq<Call>
    decreases |objs|
  {
    if objs == [] then [] else DisposeAll(objs[..|objs| - 1]) + objs[|objs| - 1].DisposeCalls()
  }

  /** Disposing a list disposes each object once, in order: its four calls sit at block `i`. */
  lemma {:induction false} DisposeOrder(objs: seq<SceneObject>)
    ensures |DisposeAll(objs)| == 4 * |objs|
    ensures forall i :: 0 <= i < |objs| ==> DisposeAll(objs)[4 * i..4 * i + 4] == objs[i].DisposeCalls()
    decreases |objs|
  {
    if objs != [] {
      var front := objs[..|objs| - 1];
      DisposeOrder(front);
      var all, before := DisposeAll(objs), DisposeAll(front);
      forall i | 0 <= i < |objs|
        ensures all[4 * i..4 * i + 4] == objs[i].DisposeCalls()
      {
        if i < |front| {
          assert objs[i] == front[i];
          assert all[4 * i..4 * i + 4] == before[4 * i..4 * i + 4];
        } else {
          assert all[4 * i..4 * i + 4] == all[|before|..];
        }
      }
    }
  }

  /** The names the objects own. */
  function NamesOf(objs: seq<SceneObject>): set<Handle>
    decreases |objs|
  {
    if objs == [] then {} else NamesOf(objs[..|objs| - 1]) + objs[|objs| - 1].Names()
  }

  /** Disposing a list only releases names, and only the objects' own: every name of every
      object goes when the driver accepts every call, and the flag is raised when it refuses
      one; nothing else in the context changes. */
  lemma {:induction false} DisposeAllReleases(s: GLData, objs: seq<SceneObject>)
    ensures AllDeletions(DisposeAll(objs))
    ensures Applied(s, DisposeAll(objs))
            == s.(live := s.live - Released(s.driver, DisposeAll(objs)), error := s.error || !Accepts(s.driver, DisposeAll(objs)))
    ensures Released(s.driver, DisposeAll(objs)) <= NamesOf(objs)
    ensures Accepts(s.driver, DisposeAll(objs)) ==> Released(s.driver, DisposeAll(objs)) == NamesOf(objs)
    decreases |objs|
  {
    if objs != [] {
      var front, last := objs[..|objs| - 1], objs[|objs| - 1];
      DisposeAllReleases(s, front);
      last.DisposeReleases(s);
      ReleasedAppend(s.driver, DisposeAll(front), last.DisposeCalls());
      AcceptsParts(s.driver, DisposeAll(front), last.DisposeCalls());
    }
    DeletionsRelease(s, DisposeAll(objs));
  }

  /** Object `i`'s `Draw`, after the objects before it drew their parts: a throw ends the whole
      scene's draw there. */
  method DrawNext(objs: seq<SceneObject>, i: nat, camera: Camera, ghost gl: GLState, ghost d: Issued<()>, ghost t0: seq<Call>,
                  ghost parts: seq<seq<Action>>) returns (o: Outcome)
    requires i < |objs| && objs[i].Wired() && objs[i].mesh.gl == gl && gl.Valid() && |parts| == |objs| && parts[i] == objs[i].Steps(camera)
    requires Run(d, Concat(parts[..i])).result.Success? && At(gl, d, t0, Concat(parts[..i]))
    modifies gl
    ensures gl.Valid()
    ensures o.Pass? ==> At(gl, d, t0, Concat(parts[..i + 1])) && Run(d, Concat(parts[..i + 1])).result.Success?
    ensures o.Fail? ==> At(gl, d, t0, Concat(parts)) && o == Reported(Run(d, Concat(parts)).result)
  {
    var obj := objs[i];
    ghost var done := Concat(parts[..i]);
    obj.WiredValid();
    o := obj.Draw(camera);
    obj.WiredValid();
    Continued(d, done, parts[i], t0);
    ConcatNext(parts, i);
    if o.Fail? {
      ConcatStops(d, parts, i);
    }
  }

  class Scene {
    const camera: Camera
    var contents: seq<SceneObject>

    /** `ObjectCount`. */
    function ObjectCount(): nat
      reads this
    {
      |contents|
    }

    /** Every object is drawn on the context `gl`, which is valid. */
    ghost predicate Shares(gl: GLState)
      reads this, gl
    {
      gl.Valid() && forall i :: 0 <= i < |contents| ==> contents[i].Wired() && contents[i].mesh.gl == gl
    }

    constructor Wrap(camera: Camera)
      ensures this.camera == camera && contents == []
    {
      this.camera := camera;
      contents := [];
    }

    /** `new Scene(camera)`: a null camera throws; a new scene is empty. */
    static method New(camera: Camera?) returns (r: Result<Scene>)
      ensures r.Failure? <==> camera == null
      ensures r.Failure? ==> r.error == ArgumentNull("camera")
      ensures r.Success? ==> fresh(r.value) && r.value.camera == camera && r.value.ObjectCount() == 0
    {
      if camera == null {
        return Failure(ArgumentNull("camera"));
      }
      var scene := new Scene.Wrap(camera);
      return Success(scene);
    }

    /** `Add(newObject)`: null throws and leaves the list alone; anything else goes at the end. */
    method Add(newObject: SceneObject?) returns (o: Outcome)
      modifies this
      ensures newObject == null ==> o == Fail(ArgumentNull("newObject")) && contents == old(contents)
      ensures newObject != null ==> o == Pass && contents == old(contents) + [newObject]
      ensures ObjectCount() == old(ObjectCount()) + (if newObject == null then 0 else 1)
    {
      if newObject == null {
        return Fail(ArgumentNull("newObject"));
      }
      contents := contents + [newObject];
      o := Pass;
    }

    /** `Remove(objectToRemove)`: true exactly when the object was in the scene; only its first
        occurrence goes. */
    method Remove(objectToRemove: SceneObject?) returns (removed: bool)
      modifies this
      ensures removed <==> objectToRemove in old(contents)
      ensures contents == RemoveFirst(old(contents), objectToRemove)
      ensures ObjectCount() == old(ObjectCount()) - (if removed then 1 else 0)
    {
      var i := 0;
      while i < |contents| && contents[i] != objectToRemove
        invariant 0 <= i <= |contents|
        invariant objectToRemove !in contents[..i]
      {
        i := i + 1;
      }
      RemoveCounts(contents, objectToRemove);
      if i == |contents| {
        assert contents[..i] == contents;
        RemoveAbsent(contents, objectToRemove);
        return false;
      }
      RemoveAt(contents, objectToRemove, i);
      contents := contents[..i] + contents[i + 1..];
      removed := true;
    }

    /** `Clear()`. */
    method Clear()
      modifies this
      ensures contents == [] && ObjectCount() == 0
    {
      contents := [];
    }

    /** `Draw(deltaTime, absoluteTime)`: each object's `Draw` with the scene's camera, in order;
        the first object that throws ends the draw. An empty scene issues nothing. */
    method Draw(ghost gl: GLState) returns (o: Outcome)
      requires Shares(gl)
      modifies gl
      ensures Shares(gl)
      ensures At(gl, Start(old(gl.state)), old(gl.trace), Concat(old(Parts(contents, camera))))
      ensures o == Reported(Run(Start(old(gl.state)), Concat(old(Parts(contents, camera)))).result)
    {
      ghost var d, t0 := Start(gl.state), gl.trace;
      ghost var parts := Parts(contents, camera);
      assert t0 + d.calls == t0;
      o := Pass;
      var i := 0;
      while i < |contents|
        invariant 0 <= i <= |contents|
        invariant Shares(gl)
        invariant At(gl, d, t0, Concat(parts[..i])) && Run(d, Concat(parts[..i])).result.Success? && o == Pass
      {
        assert parts[i] == old(contents[i].Steps(camera));
        assert contents[i].View(camera) == old(contents[i].View(camera));
        o := DrawNext(contents, i, camera, gl, d, t0, parts);
        if o.Fail? {
          return;
        }
        i := i + 1;
      }
      assert parts[..i] == parts;
    }

    /** `Dispose()`: each object's `Dispose`, in order; the list itself stays as it was. */
    method Dispose(ghost gl: GLState)
      requires Shares(gl)
      modifies gl
      ensures Shares(gl)
      ensures gl.trace == old(gl.trace) + DisposeAll(contents)
      ensures gl.state == Applied(old(gl.state), DisposeAll(contents))
    {
      ghost var s0 := gl.state;
      var i := 0;
      while i < |contents|
        invariant 0 <= i <= |contents|
        invariant Shares(gl)
        invariant gl.trace == old(gl.trace) + DisposeAll(contents[..i])
        invariant gl.state == Applied(s0, DisposeAll(contents[..i]))
      {
        var obj := contents[i];
        assert contents[..i + 1][..i] == contents[..i];
        ghost var done := DisposeAll(contents[..i]);
        assert DisposeAll(contents[..i + 1]) == done + obj.DisposeCalls();
        obj.WiredValid();
        obj.Dispose();
        AppliedAppend(s0, done, obj.DisposeCalls());
        SeqAssociates(old(gl.trace), done, obj.DisposeCalls());
        obj.WiredValid();
        i := i + 1;
      }
      assert contents[..i] == contents;
    }
  }
}
