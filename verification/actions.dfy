/** The drawing sequences of meshes and scene objects, as lists of steps: GL calls that cannot
    throw, uniform writes, and uniform presence checks that throw when the uniform is missing.
    A sequence stops at its first failing step, as the engine's exceptions do. */
module Actions {
  import opened Values
  import opened GL
  import opened Shaders
  import opened Uniforms

  /** One step: a call; a `SetUniform` through a program; or a `HasUniform` check through a
      program that throws `missing` when the name has no location. */
  datatype Action =
    | Issue(call: Call)
    | Set(program: Handle, w: Write)
    | Require(program: Handle, name: string, missing: Exn)

  /** Nothing done yet, from state `s`. */
  function Start(s: GLData): Issued<()> {
    Issued(s, [], Success(()))
  }

  function Lookup(program: Handle, name: string): Call {
    Prog(ProgramCall.GetUniformLocation(program, name))
  }

  /** One more step after `d`; nothing once a step has failed. */
  function Next(d: Issued<()>, a: Action): Issued<()> {
    if d.result.Failure? then d
    else match a
      case Issue(c) => Issued(Step(d.state, c), d.calls + [c], Success(()))
      case Set(p, w) => Then(d, p, w)
      case Require(p, name, missing) =>
        Issued(d.state, d.calls + [Lookup(p, name)], if Loc(d.state, p, name) == -1 then Failure(missing) else Success(()))
  }

  /** The steps `acts`, in order, after `d`. */
  function Run(d: Issued<()>, acts: seq<Action>): Issued<()> {
    if acts == [] then d else Next(Run(d, acts[..|acts| - 1]), acts[|acts| - 1])
  }

  /** Once a step has failed, later steps do nothing. */
  lemma {:induction false} RunStopped(d: Issued<()>, acts: seq<Action>)
    requires d.result.Failure?
    ensures Run(d, acts) == d
    decreases |acts|
  {
    if acts != [] {
      RunStopped(d, acts[..|acts| - 1]);
    }
  }

  /** Running two lists one after the other is running their concatenation. */
  lemma {:induction false} RunAppend(d: Issued<()>, a: seq<Action>, b: seq<Action>)
    ensures Run(d, a + b) == Run(Run(d, a), b)
    decreases |b|
  {
    if b == [] {
      assert a + b == a;
    } else {
      assert (a + b)[..|a + b| - 1] == a + b[..|b| - 1];
      assert (a + b)[|a + b| - 1] == b[|b| - 1];
      RunAppend(d, a, b[..|b| - 1]);
    }
  }

  /** After a successful start, a list issues the same calls and ends the same way as from a
      fresh start in the state reached, its calls following those already issued. */
  lemma {:induction false} RunShift(d: Issued<()>, acts: seq<Action>)
    requires d.result.Success?
    ensures var r := Run(Start(d.state), acts);
            Run(d, acts) == Issued(r.state, d.calls + r.calls, r.result)
    decreases |acts|
  {
    if acts == [] {
      assert d.calls + [] == d.calls;
      match d.result.value { case () => }
    } else {
      var p, a := acts[..|acts| - 1], acts[|acts| - 1];
      RunShift(d, p);
      var r := Run(Start(d.state), p);
      if r.result.Success? {
        match a
        case Issue(c) =>
          assert d.calls + r.calls + [c] == d.calls + (r.calls + [c]);
        case Set(q, w) =>
          var lookup := Lookup(q, w.name);
          assert d.calls + r.calls + [lookup] == d.calls + (r.calls + [lookup]);
          match Located(r.state, q, w.name) {
            case Failure(_) =>
            case Success(loc) =>
              assert d.calls + r.calls + [lookup, Prog(Uniform(loc, w.value))] == d.calls + (r.calls + [lookup, Prog(Uniform(loc, w.value))]);
          }
        case Require(q, name, _) =>
          assert d.calls + r.calls + [Lookup(q, name)] == d.calls + (r.calls + [Lookup(q, name)]);
      }
    }
  }

  // ---------------------------------------------------------------- outcome

  /** Calls of a drawing sequence that never change which sources a program was linked from. */
  predicate Harmless(c: Call) {
    c.Tex? || c.DrawElements? || c.DrawArrays? || (c.Prog? && c.p.UseProgram?) || (c.Arr? && c.a.BindVertexArray?)
  }

  predicate AllHarmless(acts: seq<Action>) {
    forall i :: 0 <= i < |acts| ==> acts[i].Issue? ==> Harmless(acts[i].call)
  }

  /** `r` resolves every uniform name as `s` does. */
  predicate SameLinks(s: GLData, r: GLData) {
    r.prog.linkedWith == s.prog.linkedWith && r.driver == s.driver
  }

  /** Whether step `a` goes through in state `s`. */
  predicate Resolves(s: GLData, a: Action) {
    match a
    case Issue(_) => true
    case Set(p, w) => Loc(s, p, w.name) != -1
    case Require(p, name, _) => Loc(s, p, name) != -1
  }

  /** What step `a` throws when it does not go through. */
  function Thrown(a: Action): Exn {
    match a
    case Issue(_) => GLCallFailed
    case Set(_, w) => InvalidOperation(UniformMissing(w.name))
    case Require(_, _, missing) => missing
  }

  /** The calls step `a` issues when it goes through, with the locations of state `s`. */
  function ActionCalls(s: GLData, a: Action): seq<Call> {
    match a
    case Issue(c) => [c]
    case Set(p, w) => [Lookup(p, w.name), Prog(Uniform(Loc(s, p, w.name), w.value))]
    case Require(p, name, _) => [Lookup(p, name)]
  }

  /** The calls of every step of `acts`, in order, with the locations of state `s`. */
  function Expected(s: GLData, acts: seq<Action>): seq<Call> {
    if acts == [] then [] else Expected(s, acts[..|acts| - 1]) + ActionCalls(s, acts[|acts| - 1])
  }

  lemma {:induction false} ExpectedAppend(s: GLData, a: seq<Action>, b: seq<Action>)
    ensures Expected(s, a + b) == Expected(s, a) + Expected(s, b)
    decreases |b|
  {
    if b == [] {
      assert a + b == a;
    } else {
      assert (a + b)[..|a + b| - 1] == a + b[..|b| - 1];
      assert (a + b)[|a + b| - 1] == b[|b| - 1];
      ExpectedAppend(s, a, b[..|b| - 1]);
    }
  }

  lemma ExpectedOne(s: GLData, a: Action)
    ensures Expected(s, [a]) == ActionCalls(s, a)
  {
    assert [a][..0] == [];
  }

  /** The calls of `head`, then those of one more step, then those of `rest`. */
  lemma ExpectedAround(s: GLData, head: seq<Action>, a: Action, rest: seq<Action>)
    ensures Expected(s, head + [a] + rest) == Expected(s, head) + ActionCalls(s, a) + Expected(s, rest)
  {
    ExpectedAppend(s, head + [a], rest);
    ExpectedAppend(s, head, [a]);
    ExpectedOne(s, a);
  }

  /** One step after a successful run that kept the links: it goes through exactly when it
      resolves, issuing its calls, and keeps the links; otherwise it fails with what it throws,
      after one lookup. */
  lemma NextEffect(s: GLData, d: Issued<()>, a: Action)
    requires d.result.Success? && SameLinks(s, d.state)
    requires a.Issue? ==> Harmless(a.call)
    ensures var r := Next(d, a);
            && SameLinks(s, r.state)
            && (r.result.Success? <==> Resolves(s, a))
            && (r.result.Success? ==> r.calls == d.calls + ActionCalls(s, a))
            && (r.result.Failure? ==> r.result.error == Thrown(a) && r.calls == d.calls + [Lookup(a.program, if a.Set? then a.w.name else a.name)])
  {
    match a
    case Issue(c) =>
    case Set(p, w) =>
      assert Loc(d.state, p, w.name) == Loc(s, p, w.name);
      ThenEffect(d, p, w);
    case Require(p, name, _) =>
      assert Loc(d.state, p, name) == Loc(s, p, name);
  }

  /** A sequence of harmless calls, writes and checks goes through exactly when every write and
      check finds its uniform, and then issues the calls of every step in order. */
  lemma {:induction false} RunOutcome(s: GLData, acts: seq<Action>)
    requires AllHarmless(acts)
    ensures var r := Run(Start(s), acts);
            && SameLinks(s, r.state)
            && (r.result.Success? <==> forall i :: 0 <= i < |acts| ==> Resolves(s, acts[i]))
            && (r.result.Success? ==> r.calls == Expected(s, acts))
    decreases |acts|
  {
    if acts != [] {
      var p, a := acts[..|acts| - 1], acts[|acts| - 1];
      assert forall i :: 0 <= i < |p| ==> p[i] == acts[i];
      RunOutcome(s, p);
      var d := Run(Start(s), p);
      if d.result.Success? {
        NextEffect(s, d, a);
      } else {
        var i :| 0 <= i < |p| && !Resolves(s, p[i]);
        assert !Resolves(s, acts[i]);
      }
    }
  }

  /** A failed sequence stopped at its first step `i` that does not resolve, with what that
      step throws, after the calls of the steps before it and one lookup. */
  lemma {:induction false} RunFails(s: GLData, acts: seq<Action>) returns (i: nat)
    requires AllHarmless(acts) && Run(Start(s), acts).result.Failure?
    ensures i < |acts| && !Resolves(s, acts[i])
    ensures forall j :: 0 <= j < i ==> Resolves(s, acts[j])
    ensures Run(Start(s), acts).result.error == Thrown(acts[i])
    ensures Run(Start(s), acts).calls == Expected(s, acts[..i]) + [Lookup(acts[i].program, if acts[i].Set? then acts[i].w.name else acts[i].name)]
    decreases |acts|
  {
    var p, a := acts[..|acts| - 1], acts[|acts| - 1];
    assert forall k :: 0 <= k < |p| ==> p[k] == acts[k];
    var d := Run(Start(s), p);
    if d.result.Failure? {
      i := RunFails(s, p);
      assert p[..i] == acts[..i];
    } else {
      RunOutcome(s, p);
      NextEffect(s, d, a);
      i := |p|;
      assert acts[..i] == p;
    }
  }

  // ---------------------------------------------------------------- methods

  /** Bookkeeping after a call issued on the context as the next step of a sequence. */
  lemma Issuing(d: Issued<()>, acts: seq<Action>, t0: seq<Call>, c: Call)
    requires acts != [] && acts[|acts| - 1] == Issue(c)
    requires Run(d, acts[..|acts| - 1]).result.Success?
    ensures var before := Run(d, acts[..|acts| - 1]);
            var after := Run(d, acts);
            && after.result.Success? && after.state == Step(before.state, c)
            && t0 + before.calls + [c] == t0 + after.calls
  {
  }

  /** `SetUniform` as the next step of a sequence started at `d` with log `t0`. */
  method SetStep(program: ShaderProgram, ghost d: Issued<()>, ghost t0: seq<Call>, ghost acts: seq<Action>, w: Write) returns (o: Outcome)
    requires program.gl.Valid()
    requires Run(d, acts).result.Success?
    requires program.gl.state == Run(d, acts).state
    requires program.gl.trace == t0 + Run(d, acts).calls
    modifies program.gl
    ensures program.gl.Valid()
    ensures var r := Run(d, acts + [Set(program.handle, w)]);
            program.gl.state == r.state && program.gl.trace == t0 + r.calls && o == Reported(r.result)
  {
    ghost var before := Run(d, acts);
    o := program.SetUniform(w.name, w.value);
    assert (acts + [Set(program.handle, w)])[..|acts| + 1 - 1] == acts;
    ghost var lookup := Lookup(program.handle, w.name);
    match Located(before.state, program.handle, w.name)
    case Failure(e) =>
      assert program.gl.trace == t0 + (before.calls + [lookup]);
    case Success(loc) =>
      assert program.gl.trace == t0 + (before.calls + [lookup, Prog(Uniform(loc, w.value))]);
  }
}
