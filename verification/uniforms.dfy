/** Runs of consecutive `ShaderProgram.SetUniform` calls, as the meshes, the scene objects and
    the object attributes issue them: each write looks its name up afresh and stops the run with
    the missing-uniform failure when the name has no location. */
module Uniforms {
  import opened Values
  import opened GL
  import opened Shaders

  /** One `SetUniform(name, value)`. */
  datatype Write = Write(name: string, value: UniformValue)

  /** One more write after `done`: nothing when `done` already failed; otherwise the lookup and,
      when the name resolves, the write to its location. */
  function Then(done: Issued<()>, program: Handle, w: Write): Issued<()> {
    if done.result.Failure? then done
    else
      var lookup := Prog(ProgramCall.GetUniformLocation(program, w.name));
      match Located(done.state, program, w.name)
      case Failure(e) => Issued(done.state, done.calls + [lookup], Failure(e))
      case Success(loc) => Issued(ProgramStep(done.state, Uniform(loc, w.value)), done.calls + [lookup, Prog(Uniform(loc, w.value))], Success(()))
  }

  /** The writes `ws`, in order, through `program` from state `s`. */
  function Written(s: GLData, program: Handle, ws: seq<Write>): Issued<()>
  {
    if ws == [] then Issued(s, [], Success(())) else Then(Written(s, program, ws[..|ws| - 1]), program, ws[|ws| - 1])
  }

  /** The outcome a method reports for a finished run. */
  function Reported(r: Result<()>): (o: Outcome)
    ensures o.Pass? <==> r.Success?
    ensures o.Fail? ==> o.error == r.error
  {
    if r.Success? then Pass else Fail(r.error)
  }

  /** Where `name` resolves in `program`; -1 when it does not. */
  function Loc(s: GLData, program: Handle, name: string): int {
    UniformLocation(s, program, name)
  }

  /** Write `i` is the last of `ws` to reach its location. */
  predicate LastWriteTo(s: GLData, program: Handle, ws: seq<Write>, i: nat)
    requires i < |ws|
  {
    forall j :: i < j < |ws| ==> Loc(s, program, ws[j].name) != Loc(s, program, ws[i].name)
  }

  /** `r` differs from `s` at most in the uniform values and the error flag. */
  predicate ValuesOnly(s: GLData, r: GLData) {
    r == s.(prog := s.prog.(uniforms := r.prog.uniforms), error := r.error)
  }

  /** One more write after a successful run: it succeeds exactly when the name resolves, with a
      lookup and a write, and otherwise fails naming it after the lookup alone. */
  lemma ThenEffect(d: Issued<()>, program: Handle, w: Write)
    requires d.result.Success?
    ensures var r := Then(d, program, w);
            && ValuesOnly(d.state, r.state)
            && (r.result.Success? <==> Loc(d.state, program, w.name) != -1)
            && (r.result.Success? ==> |r.calls| == |d.calls| + 2)
            && (r.result.Failure? ==> r.result.error == InvalidOperation(UniformMissing(w.name)) && |r.calls| == |d.calls| + 1)
  {
  }

  /** Writes change at most the uniform values and the error flag, so every lookup of a run
      sees the locations of its starting state. */
  lemma {:induction false} WrittenKeeps(s: GLData, program: Handle, ws: seq<Write>)
    ensures ValuesOnly(s, Written(s, program, ws).state)
    decreases |ws|
  {
    if ws != [] {
      var p := ws[..|ws| - 1];
      WrittenKeeps(s, program, p);
      if Written(s, program, p).result.Success? {
        ThenEffect(Written(s, program, p), program, ws[|ws| - 1]);
      }
    }
  }

  /** A run succeeds exactly when every name resolves, issuing a lookup and a write per name. */
  lemma {:induction false} WrittenSucceeds(s: GLData, program: Handle, ws: seq<Write>)
    ensures var r := Written(s, program, ws);
            && (r.result.Success? <==> forall i :: 0 <= i < |ws| ==> Loc(s, program, ws[i].name) != -1)
            && (r.result.Success? ==> |r.calls| == 2 * |ws|)
    decreases |ws|
  {
    if ws != [] {
      var p, w := ws[..|ws| - 1], ws[|ws| - 1];
      WrittenSucceeds(s, program, p);
      WrittenKeeps(s, program, p);
      var d := Written(s, program, p);
      assert forall j :: 0 <= j < |p| ==> ws[j] == p[j];
      if d.result.Success? {
        ThenEffect(d, program, w);
      } else {
        var i :| 0 <= i < |p| && Loc(s, program, p[i].name) == -1;
        assert Loc(s, program, ws[i].name) == -1;
      }
    }
  }

  /** A failed run stopped at the first name `i` without a location, which the failure names,
      after one lookup for it. */
  lemma {:induction false} WrittenFails(s: GLData, program: Handle, ws: seq<Write>) returns (i: nat)
    requires Written(s, program, ws).result.Failure?
    ensures i < |ws| && Loc(s, program, ws[i].name) == -1
    ensures forall j :: 0 <= j < i ==> Loc(s, program, ws[j].name) != -1
    ensures Written(s, program, ws).result.error == InvalidOperation(UniformMissing(ws[i].name))
    ensures |Written(s, program, ws).calls| == 2 * i + 1
    decreases |ws|
  {
    var p, w := ws[..|ws| - 1], ws[|ws| - 1];
    var d := Written(s, program, p);
    assert forall j :: 0 <= j < |p| ==> ws[j] == p[j];
    if d.result.Failure? {
      i := WrittenFails(s, program, p);
    } else {
      WrittenSucceeds(s, program, p);
      WrittenKeeps(s, program, p);
      ThenEffect(d, program, w);
      i := |p|;
    }
  }

  /** An accepted write after a successful run stores its value for the current program. */
  lemma ThenStores(d: Issued<()>, program: Handle, w: Write)
    requires d.result.Success? && d.state.prog.current != 0
    requires Loc(d.state, program, w.name) != -1
    requires Prog(Uniform(Loc(d.state, program, w.name), w.value)) !in d.state.driver.rejects
    ensures var loc := Loc(d.state, program, w.name);
            var r := Then(d, program, w);
            && r.result.Success?
            && r.calls == d.calls + [Prog(ProgramCall.GetUniformLocation(program, w.name)), Prog(Uniform(loc, w.value))]
            && r.state == d.state.(prog := d.state.prog.(uniforms := d.state.prog.uniforms[(d.state.prog.current, loc) := w.value]))
  {
    UniformEffect(d.state, Loc(d.state, program, w.name), w.value);
  }

  /** The last write of an accepted, successful run with a program current: the run before
      it is accepted and successful too, and the write stores its value at the location its
      name has in the starting state. */
  lemma LastWrite(s: GLData, program: Handle, ws: seq<Write>)
    requires ws != [] && s.prog.current != 0
    requires Written(s, program, ws).result.Success? && Accepts(s.driver, Written(s, program, ws).calls)
    ensures var d := Written(s, program, ws[..|ws| - 1]);
            var r := Written(s, program, ws);
            && d.result.Success? && Accepts(s.driver, d.calls)
            && ValuesOnly(s, d.state) && r.state.error == d.state.error
            && r.state.prog.uniforms == d.state.prog.uniforms[(s.prog.current, Loc(s, program, ws[|ws| - 1].name)) := ws[|ws| - 1].value]
  {
    var p, w := ws[..|ws| - 1], ws[|ws| - 1];
    var d := Written(s, program, p);
    var r := Written(s, program, ws);
    assert r == Then(d, program, w);
    WrittenKeeps(s, program, p);
    var loc := Loc(s, program, w.name);
    assert Loc(d.state, program, w.name) == loc;
    ThenEffect(d, program, w);
    var lookup := Prog(ProgramCall.GetUniformLocation(program, w.name));
    var u := Prog(Uniform(loc, w.value));
    assert r.calls == d.calls + [lookup, u];
    AcceptsParts(s.driver, d.calls, [lookup, u]);
    assert [lookup, u][1] == u;
    ThenStores(d, program, w);
  }

  /** An accepted, successful run with a program current raises no error: only the uniform
      values change. */
  lemma {:induction false} WrittenClean(s: GLData, program: Handle, ws: seq<Write>)
    requires s.prog.current != 0
    requires Written(s, program, ws).result.Success? && Accepts(s.driver, Written(s, program, ws).calls)
    ensures var r := Written(s, program, ws);
            r.state == s.(prog := s.prog.(uniforms := r.state.prog.uniforms))
    decreases |ws|
  {
    WrittenKeeps(s, program, ws);
    if ws != [] {
      LastWrite(s, program, ws);
      WrittenClean(s, program, ws[..|ws| - 1]);
    }
  }

  /** In such a run each location holds, for the current program, the value of the last write
      that reached it. */
  lemma {:induction false} WrittenLastWins(s: GLData, program: Handle, ws: seq<Write>)
    requires s.prog.current != 0
    requires Written(s, program, ws).result.Success? && Accepts(s.driver, Written(s, program, ws).calls)
    ensures var r := Written(s, program, ws);
            forall i :: 0 <= i < |ws| && LastWriteTo(s, program, ws, i) ==>
              var key := (s.prog.current, Loc(s, program, ws[i].name));
              key in r.state.prog.uniforms && r.state.prog.uniforms[key] == ws[i].value
    decreases |ws|
  {
    if ws != [] {
      var p := ws[..|ws| - 1];
      var r := Written(s, program, ws);
      var cur := s.prog.current;
      LastWrite(s, program, ws);
      WrittenLastWins(s, program, p);
      forall i | 0 <= i < |ws| && LastWriteTo(s, program, ws, i)
        ensures (cur, Loc(s, program, ws[i].name)) in r.state.prog.uniforms
        ensures r.state.prog.uniforms[(cur, Loc(s, program, ws[i].name))] == ws[i].value
      {
        if i < |p| {
          assert ws[i] == p[i];
          assert LastWriteTo(s, program, p, i);
        }
      }
    }
  }

  /** In such a run a uniform value no write reached is unchanged. */
  lemma {:induction false} WrittenKeepsOthers(s: GLData, program: Handle, ws: seq<Write>, key: (Handle, int))
    requires s.prog.current != 0
    requires Written(s, program, ws).result.Success? && Accepts(s.driver, Written(s, program, ws).calls)
    requires forall i :: 0 <= i < |ws| ==> key != (s.prog.current, Loc(s, program, ws[i].name))
    ensures var r := Written(s, program, ws);
            && (key in r.state.prog.uniforms <==> key in s.prog.uniforms)
            && (key in s.prog.uniforms ==> r.state.prog.uniforms[key] == s.prog.uniforms[key])
    decreases |ws|
  {
    if ws != [] {
      var p := ws[..|ws| - 1];
      LastWrite(s, program, ws);
      assert key != (s.prog.current, Loc(s, program, ws[|p|].name));
      forall i | 0 <= i < |p|
        ensures key != (s.prog.current, Loc(s, program, p[i].name))
      {
        assert ws[i] == p[i];
      }
      WrittenKeepsOthers(s, program, p, key);
    }
  }

  /** One more write extends the run by `Then`. */
  lemma WrittenSnoc(s: GLData, program: Handle, ws: seq<Write>, w: Write)
    ensures Written(s, program, ws + [w]) == Then(Written(s, program, ws), program, w)
  {
    assert (ws + [w])[..|ws|] == ws;
  }

  /** `SetUniform` as the next write of a run that has succeeded so far, from state `s0` and
      log `t0`. */
  method SetNext(program: ShaderProgram, ghost s0: GLData, ghost t0: seq<Call>, ghost ws: seq<Write>, w: Write) returns (o: Outcome)
    requires program.gl.Valid()
    requires Written(s0, program.handle, ws).result.Success?
    requires program.gl.state == Written(s0, program.handle, ws).state
    requires program.gl.trace == t0 + Written(s0, program.handle, ws).calls
    modifies program.gl
    ensures program.gl.Valid()
    ensures var r := Written(s0, program.handle, ws + [w]);
            program.gl.state == r.state && program.gl.trace == t0 + r.calls && o == Reported(r.result)
  {
    ghost var d := Written(s0, program.handle, ws);
    WrittenSnoc(s0, program.handle, ws, w);
    ghost var lookup := Prog(ProgramCall.GetUniformLocation(program.handle, w.name));
    o := program.SetUniform(w.name, w.value);
    match Located(d.state, program.handle, w.name)
    case Failure(e) =>
      SeqAssociates(t0, d.calls, [lookup]);
    case Success(loc) =>
      SeqAssociates(t0, d.calls, [lookup, Prog(Uniform(loc, w.value))]);
  }
}
