/** The steps a drawing method takes on the context, one wrapper call at a time, each keeping
    the context in step with the action list that specifies the method. */
module Drawing {
  import opened Values
  import opened GL
  import opened Shaders
  import opened Textures
  import opened Uniforms
  import opened Actions

  /** The context holds the outcome of `acts` run after `d`, its log following `t0`. */
  ghost predicate At(gl: GLState, d: Issued<()>, t0: seq<Call>, acts: seq<Action>)
    reads gl
  {
    var r := Run(d, acts);
    gl.state == r.state && gl.trace == t0 + r.calls
  }

  lemma Extended(d: Issued<()>, acts: seq<Action>, a: Action)
    ensures Run(d, acts + [a]) == Next(Run(d, acts), a)
  {
    assert (acts + [a])[..|acts|] == acts;
  }

  /** After a failed step nothing more happens. */
  lemma StoppedAt(d: Issued<()>, acts: seq<Action>, rest: seq<Action>)
    requires Run(d, acts).result.Failure?
    ensures Run(d, acts + rest) == Run(d, acts)
  {
    RunAppend(d, acts, rest);
    RunStopped(Run(d, acts), rest);
  }

  /** `Bind(unit)` of texture `h` as steps. */
  function BindActions(h: Handle, unit: nat): seq<Action> {
    [Issue(Tex(ActiveTexture(unit))), Issue(Tex(BindTexture(h)))]
  }

  method StepUse(program: ShaderProgram, ghost d: Issued<()>, ghost t0: seq<Call>, ghost acts: seq<Action>)
    requires program.gl.Valid() && Run(d, acts).result.Success? && At(program.gl, d, t0, acts)
    modifies program.gl
    ensures program.gl.Valid()
    ensures var done := acts + [Issue(Prog(UseProgram(program.handle)))];
            Run(d, done).result.Success? && At(program.gl, d, t0, done)
  {
    program.Use();
    Extended(d, acts, Issue(Prog(UseProgram(program.handle))));
  }

  method StepBind(texture: Simple2DTexture, unit: nat, ghost d: Issued<()>, ghost t0: seq<Call>, ghost acts: seq<Action>)
    requires texture.gl.Valid() && Run(d, acts).result.Success? && At(texture.gl, d, t0, acts)
    modifies texture.gl
    ensures texture.gl.Valid()
    ensures var done := acts + BindActions(texture.handle, unit);
            Run(d, done).result.Success? && At(texture.gl, d, t0, done)
  {
    texture.Bind(unit);
    var select, bind := Issue(Tex(ActiveTexture(unit))), Issue(Tex(BindTexture(texture.handle)));
    Extended(d, acts, select);
    Extended(d, acts + [select], bind);
    assert acts + [select] + [bind] == acts + BindActions(texture.handle, unit);
  }

  method StepDraw(gl: GLState, c: Call, ghost d: Issued<()>, ghost t0: seq<Call>, ghost acts: seq<Action>)
    requires c.DrawElements? || c.DrawArrays?
    requires gl.Valid() && Run(d, acts).result.Success? && At(gl, d, t0, acts)
    modifies gl
    ensures gl.Valid()
    ensures Run(d, acts + [Issue(c)]).result.Success? && At(gl, d, t0, acts + [Issue(c)])
  {
    gl.Draw(c);
    Extended(d, acts, Issue(c));
  }

  /** `HasUniform(name)` followed by a throw of `missing` when it answers false. */
  method StepRequire(program: ShaderProgram, name: string, missing: Exn, ghost d: Issued<()>, ghost t0: seq<Call>, ghost acts: seq<Action>)
    returns (o: Outcome)
    requires program.gl.Valid() && Run(d, acts).result.Success? && At(program.gl, d, t0, acts)
    modifies program.gl
    ensures program.gl.Valid()
    ensures var done := acts + [Require(program.handle, name, missing)];
            At(program.gl, d, t0, done) && o == Reported(Run(d, done).result)
  {
    var present := program.HasUniform(name);
    o := if present then Pass else Fail(missing);
    Extended(d, acts, Require(program.handle, name, missing));
  }

  /** `SetUniform(name, value)` as the next step. */
  method StepSet(program: ShaderProgram, w: Write, ghost d: Issued<()>, ghost t0: seq<Call>, ghost acts: seq<Action>)
    returns (o: Outcome)
    requires program.gl.Valid() && Run(d, acts).result.Success? && At(program.gl, d, t0, acts)
    modifies program.gl
    ensures program.gl.Valid()
    ensures var done := acts + [Set(program.handle, w)];
            At(program.gl, d, t0, done) && o == Reported(Run(d, done).result)
  {
    o := SetStep(program, d, t0, acts, w);
  }

  /** Consecutive `SetUniform` calls of `ws` through `p`, as steps. */
  function Sets(p: Handle, ws: seq<Write>): (r: seq<Action>)
    ensures |r| == |ws| && forall i :: 0 <= i < |ws| ==> r[i] == Set(p, ws[i])
    decreases |ws|
  {
    if ws == [] then [] else Sets(p, ws[..|ws| - 1]) + [Set(p, ws[|ws| - 1])]
  }

  /** Run from a fresh start, the steps of `Sets` are the uniform run `Written`. */
  lemma {:induction false} SetsWritten(s: GLData, p: Handle, ws: seq<Write>)
    ensures Run(Start(s), Sets(p, ws)) == Written(s, p, ws)
    decreases |ws|
  {
    if ws != [] {
      var q := Sets(p, ws);
      assert q[..|q| - 1] == Sets(p, ws[..|ws| - 1]);
      SetsWritten(s, p, ws[..|ws| - 1]);
    }
  }

  /** Each write issues its lookup, then its write to the location found. */
  lemma {:induction false} SetsExpected(s: GLData, p: Handle, ws: seq<Write>)
    ensures var e := Expected(s, Sets(p, ws));
            && |e| == 2 * |ws|
            && forall i :: 0 <= i < |ws| ==> e[2 * i] == Lookup(p, ws[i].name) && e[2 * i + 1] == Prog(Uniform(Loc(s, p, ws[i].name), ws[i].value))
    decreases |ws|
  {
    if ws != [] {
      var q := Sets(p, ws);
      var front := ws[..|ws| - 1];
      assert q[..|q| - 1] == Sets(p, front);
      SetsExpected(s, p, front);
      var e, e0 := Expected(s, q), Expected(s, Sets(p, front));
      var w := ws[|ws| - 1];
      assert e == e0 + [Lookup(p, w.name), Prog(Uniform(Loc(s, p, w.name), w.value))];
      forall i | 0 <= i < |ws|
        ensures e[2 * i] == Lookup(p, ws[i].name) && e[2 * i + 1] == Prog(Uniform(Loc(s, p, ws[i].name), ws[i].value))
      {
        if i < |front| {
          assert ws[i] == front[i];
          assert e[2 * i] == e0[2 * i] && e[2 * i + 1] == e0[2 * i + 1];
        } else {
          assert 2 * i == |e0|;
        }
      }
    }
  }

  /** `SetUniform` for each of `ws` in turn, stopping at the first missing uniform. */
  method StepWrites(program: ShaderProgram, ws: seq<Write>, ghost d: Issued<()>, ghost t0: seq<Call>, ghost acts: seq<Action>)
    returns (o: Outcome)
    requires program.gl.Valid() && Run(d, acts).result.Success? && At(program.gl, d, t0, acts)
    modifies program.gl
    ensures program.gl.Valid()
    ensures var done := acts + Sets(program.handle, ws);
            At(program.gl, d, t0, done) && o == Reported(Run(d, done).result)
    decreases |ws|
  {
    if ws == [] {
      assert acts + Sets(program.handle, ws) == acts;
      return Pass;
    }
    var front, w := ws[..|ws| - 1], ws[|ws| - 1];
    ghost var done := acts + Sets(program.handle, front);
    assert acts + Sets(program.handle, ws) == done + [Set(program.handle, w)];
    o := StepWrites(program, front, d, t0, acts);
    if o.Fail? {
      StoppedAt(d, done, [Set(program.handle, w)]);
      return;
    }
    o := StepSet(program, w, d, t0, done);
  }

  // ---------------------------------------------------------------- outcomes

  predicate AllResolve(s: GLData, acts: seq<Action>) {
    forall i :: 0 <= i < |acts| ==> Resolves(s, acts[i])
  }

  lemma AllResolveAppend(s: GLData, a: seq<Action>, b: seq<Action>)
    ensures AllResolve(s, a + b) <==> AllResolve(s, a) && AllResolve(s, b)
  {
    if AllResolve(s, a) && AllResolve(s, b) {
      forall i | 0 <= i < |a + b|
        ensures Resolves(s, (a + b)[i])
      {
        if i >= |a| {
          assert (a + b)[i] == b[i - |a|];
        }
      }
    }
    if AllResolve(s, a + b) {
      forall i | 0 <= i < |b|
        ensures Resolves(s, b[i])
      {
        assert (a + b)[|a| + i] == b[i];
      }
      forall i | 0 <= i < |a|
        ensures Resolves(s, a[i])
      {
        assert (a + b)[i] == a[i];
      }
    }
  }

  lemma HarmlessAppend(a: seq<Action>, b: seq<Action>)
    ensures AllHarmless(a + b) <==> AllHarmless(a) && AllHarmless(b)
    ensures NoDraws(a + b) <==> NoDraws(a) && NoDraws(b)
  {
    assert forall i :: 0 <= i < |a| ==> (a + b)[i] == a[i];
    assert forall i :: 0 <= i < |b| ==> (a + b)[|a| + i] == b[i];
    if AllHarmless(a) && AllHarmless(b) {
      forall i | 0 <= i < |a + b|
        ensures (a + b)[i].Issue? ==> Harmless((a + b)[i].call)
      {
        if i >= |a| {
          assert (a + b)[i] == b[i - |a|];
        }
      }
    }
    if NoDraws(a) && NoDraws(b) {
      forall i | 0 <= i < |a + b|
        ensures !((a + b)[i].Issue? && IsDraw((a + b)[i].call))
      {
        if i >= |a| {
          assert (a + b)[i] == b[i - |a|];
        }
      }
    }
  }

  /** Writes issue no call of their own. */
  lemma SetsHarmless(p: Handle, ws: seq<Write>)
    ensures AllHarmless(Sets(p, ws)) && NoDraws(Sets(p, ws))
  {
  }

  predicate IsDraw(c: Call) {
    c.DrawElements? || c.DrawArrays?
  }

  /** No step of `acts` issues a draw call. */
  predicate NoDraws(acts: seq<Action>) {
    forall i :: 0 <= i < |acts| ==> !(acts[i].Issue? && IsDraw(acts[i].call))
  }

  lemma {:induction false} ExpectedNoDraws(s: GLData, acts: seq<Action>)
    requires NoDraws(acts)
    ensures forall c :: c in Expected(s, acts) ==> !IsDraw(c)
    decreases |acts|
  {
    if acts != [] {
      var p := acts[..|acts| - 1];
      assert NoDraws(p) by {
        forall i | 0 <= i < |p| ensures !(p[i].Issue? && IsDraw(p[i].call)) {
          assert p[i] == acts[i];
        }
      }
      ExpectedNoDraws(s, p);
    }
  }

  /** A sequence whose only draw call is its last step and that fails issues no draw call: a
      failed presence check or uniform write aborts the draw. */
  lemma FailedDrawsNothing(s: GLData, acts: seq<Action>)
    requires AllHarmless(acts) && acts != [] && NoDraws(acts[..|acts| - 1])
    requires Run(Start(s), acts).result.Failure?
    ensures forall c :: c in Run(Start(s), acts).calls ==> !IsDraw(c)
  {
    var i := RunFails(s, acts);
    assert NoDraws(acts[..i]) by {
      forall j | 0 <= j < i ensures !(acts[..i][j].Issue? && IsDraw(acts[..i][j].call)) {
        assert acts[..i][j] == acts[..|acts| - 1][j];
      }
    }
    ExpectedNoDraws(s, acts[..i]);
  }
}
