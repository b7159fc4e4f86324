/** The graphics device as the shader-program layer sees it.

    Every WebGL call the layer makes, except the four status and info-log
    queries, becomes one `Command` appended to the device's log. The device
    interprets the set of enabled vertex-attribute arrays and the program it
    has bound, and hands out fresh object handles; everything else it
    answers (compile and link status, attribute and uniform locations) is
    supplied from outside. */
module Gl {

  datatype Option<T> = None | Some(value: T)

  /** An opaque device object (shader or program). */
  type Handle = nat

  /** WebGL enumerants the layer passes through. */
  const FLOAT: int := 0x1406
  const UNSIGNED_INT: int := 0x1405

  /** A resolved uniform location; `Absent` is the "not used by the shader" sentinel. */
  datatype UniformLoc = Absent | Loc(id: nat)

  /** A 4x4 matrix pushed to the device: either one the caller supplied, or the
      inverse of the transpose of one, kept symbolic (the floating-point
      computation itself is not modelled). */
  datatype Matrix = Given(entries: seq<real>) | InverseTransposeOf(entries: seq<real>)

  datatype UniformType = Mat4Type | Vec4Type | Vec3Type | FloatType | IntType

  /** A value together with the typed transfer that carries it
      (uniformMatrix4fv, uniform4fv, uniform3fv, uniform1f, uniform1i). */
  datatype UniformValue =
    | Matrix4(m: Matrix)
    | Vector4(v: seq<real>)
    | Vector3(v: seq<real>)
    | Float1(x: real)
    | Int1(n: int)
  {
    function Type(): UniformType {
      match this
      case Matrix4(_) => Mat4Type
      case Vector4(_) => Vec4Type
      case Vector3(_) => Vec3Type
      case Float1(_) => FloatType
      case Int1(_) => IntType
    }
  }

  /** The streams a geometry provider is asked to make current. */
  datatype Stream = PositionStream | NormalStream | IndexStream

  datatype Command =
    | CreateShader(stage: int, shader: Handle)
    | ShaderSource(shader: Handle, source: string)
    | CompileShader(shader: Handle)
    | CreateProgram(program: Handle)
    | AttachShader(program: Handle, shader: Handle)
    | LinkProgram(program: Handle)
    | GetAttribLocation(program: Handle, name: string)
    | GetUniformLocation(program: Handle, name: string)
    | UseProgram(program: Handle)
    | UniformWrite(loc: UniformLoc, value: UniformValue)
    | EnableAttrib(slot: int)
    | AttribPointer(slot: int, size: int, componentType: int, normalized: bool, stride: int, offset: int)
    | DisableAttrib(slot: int)
    | BindStream(stream: Stream)
    | DrawElements(mode: int, count: int, indexType: int, offset: int)

  /** What the linked program reports about its active inputs: attribute name
      to location, uniform name to location. */
  datatype Interface = Interface(attributes: map<string, nat>, uniforms: map<string, nat>)

  /** getAttribLocation: -1 for a name the program does not use. */
  function AttribLocation(iface: Interface, name: string): (loc: int)
    ensures loc == -1 <==> name !in iface.attributes
  {
    if name in iface.attributes then iface.attributes[name] else -1
  }

  /** getUniformLocation: `Absent` for a name the program does not use. */
  function UniformLocation(iface: Interface, name: string): (loc: UniformLoc)
    ensures loc == Absent <==> name !in iface.uniforms
  {
    if name in iface.uniforms then Loc(iface.uniforms[name]) else Absent
  }

  /** The observable device state: the bind-cache slot, the enabled attribute
      arrays, and the commands issued so far. */
  datatype GlState = GlState(active: Option<Handle>, enabled: set<int>, log: seq<Command>)

  /** The program the device has bound after `log`: the one named by the last
      UseProgram command, if any. */
  function LastUsed(log: seq<Command>): Option<Handle>
    decreases |log|
  {
    if |log| == 0 then None
    else if log[|log| - 1].UseProgram? then Some(log[|log| - 1].program)
    else LastUsed(log[..|log| - 1])
  }

  /** The effect of one command on the set of enabled attribute arrays. */
  function Toggle(enabled: set<int>, c: Command): set<int> {
    match c
    case EnableAttrib(slot) => enabled + {slot}
    case DisableAttrib(slot) => enabled - {slot}
    case _ => enabled
  }

  /** The enabled attribute arrays after `cmds`, starting from `enabled`. */
  function Replay(enabled: set<int>, cmds: seq<Command>): set<int>
    decreases |cmds|
  {
    if cmds == [] then enabled else Replay(Toggle(enabled, cmds[0]), cmds[1..])
  }

  /** `c` creates the device object `h`. */
  predicate Creates(c: Command, h: Handle) {
    (c.CreateShader? && c.shader == h) || (c.CreateProgram? && c.program == h)
  }

  /** One more than the largest handle `log` created; 0 if it created none. */
  function CreatedBound(log: seq<Command>): nat
    decreases |log|
  {
    if |log| == 0 then 0
    else
      var rest := CreatedBound(log[..|log| - 1]);
      var c := log[|log| - 1];
      if c.CreateShader? && c.shader >= rest then c.shader + 1
      else if c.CreateProgram? && c.program >= rest then c.program + 1
      else rest
  }

  /** No command of `log` created `h`. */
  predicate NeverCreated(log: seq<Command>, h: Handle) {
    forall i :: 0 <= i < |log| ==> !Creates(log[i], h)
  }

  predicate NoActivation(cmds: seq<Command>) {
    forall i :: 0 <= i < |cmds| ==> !cmds[i].UseProgram?
  }

  /** Number of program activations in `cmds`. */
  function Activations(cmds: seq<Command>): nat
    decreases |cmds|
  {
    if cmds == [] then 0
    else (if cmds[0].UseProgram? then 1 else 0) + Activations(cmds[1..])
  }

  /** Replaying a concatenation is replaying its parts in turn. */
  lemma {:induction false} ReplayAppend(e: set<int>, a: seq<Command>, b: seq<Command>)
    ensures Replay(e, a + b) == Replay(Replay(e, a), b)
    decreases |a|
  {
    if a == [] {
      assert a + b == b;
    } else {
      assert (a + b)[0] == a[0];
      assert (a + b)[1..] == a[1..] + b;
      ReplayAppend(Toggle(e, a[0]), a[1..], b);
    }
  }

  lemma {:induction false} ActivationsAppend(a: seq<Command>, b: seq<Command>)
    ensures Activations(a + b) == Activations(a) + Activations(b)
    decreases |a|
  {
    if a == [] {
      assert a + b == b;
    } else {
      assert (a + b)[0] == a[0];
      assert (a + b)[1..] == a[1..] + b;
      ActivationsAppend(a[1..], b);
    }
  }

  /** Commands that activate nothing leave the bound program as it was. */
  lemma {:induction false} LastUsedKept(a: seq<Command>, b: seq<Command>)
    requires NoActivation(b)
    ensures LastUsed(a + b) == LastUsed(a)
    decreases |b|
  {
    if b != [] {
      var b' := b[..|b| - 1];
      assert (a + b)[..|a + b| - 1] == a + b';
      assert (a + b)[|a + b| - 1] == b[|b| - 1];
      LastUsedKept(a, b');
    } else {
      assert a + b == a;
    }
  }

  /** A handle at or above the bound was never created. */
  lemma {:induction false} BoundExcludes(log: seq<Command>, h: Handle)
    requires CreatedBound(log) <= h
    ensures NeverCreated(log, h)
    decreases |log|
  {
    if |log| > 0 {
      var init := log[..|log| - 1];
      BoundExcludes(init, h);
      forall i | 0 <= i < |log| ensures !Creates(log[i], h) {
        if i < |init| {
          assert log[i] == init[i];
        }
      }
    }
  }

  lemma {:induction false} NoActivationCount(cmds: seq<Command>)
    requires NoActivation(cmds)
    ensures Activations(cmds) == 0
    decreases |cmds|
  {
    if cmds != [] {
      NoActivationCount(cmds[1..]);
    }
  }

  /** The device. `activeProgram` is the layer's process-wide bind cache; the
      other fields are the device's own state. */
  class Device {
    var activeProgram: Option<Handle>
    var enabled: set<int>
    var log: seq<Command>
    var nextHandle: Handle

    /** The cache agrees with the program the device has actually bound, the
        enabled set is the one the issued commands produce, and the handle
        counter is above every object created so far. */
    ghost predicate Valid()
      reads this
    {
      activeProgram == LastUsed(log) && enabled == Replay({}, log)
      && CreatedBound(log) <= nextHandle
    }

    function State(): GlState
      reads this
    {
      GlState(activeProgram, enabled, log)
    }

    /** A fresh context: no program bound, no attribute array enabled. */
    constructor ()
      ensures Valid()
      ensures activeProgram == None && enabled == {} && log == [] && nextHandle == 0
    {
      activeProgram := None;
      enabled := {};
      log := [];
      nextHandle := 0;
    }

    /** Issue a command that neither changes the bound program nor creates
        an object. */
    method Send(c: Command)
      requires Valid()
      requires !c.UseProgram? && !c.CreateShader? && !c.CreateProgram?
      modifies this
      ensures Valid()
      ensures log == old(log) + [c]
      ensures enabled == Toggle(old(enabled), c)
      ensures activeProgram == old(activeProgram) && nextHandle == old(nextHandle)
    {
      ReplayAppend({}, log, [c]);
      LastUsedKept(log, [c]);
      assert (log + [c])[..|log|] == log;
      log := log + [c];
      enabled := Toggle(enabled, c);
    }

    /** gl.useProgram: binds `p`. The caller keeps the cache up to date. */
    method UseProgram(p: Handle)
      requires Valid()
      modifies this
      ensures log == old(log) + [Command.UseProgram(p)]
      ensures LastUsed(log) == Some(p) && enabled == Replay({}, log)
      ensures CreatedBound(log) <= nextHandle
      ensures enabled == old(enabled) && activeProgram == old(activeProgram)
      ensures nextHandle == old(nextHandle)
    {
      ReplayAppend({}, log, [Command.UseProgram(p)]);
      assert (log + [Command.UseProgram(p)])[..|log|] == log;
      log := log + [Command.UseProgram(p)];
    }

    /** gl.createShader: a new shader object for the given stage, whose
        handle no earlier command created. */
    method CreateShader(stage: int) returns (h: Handle)
      requires Valid()
      modifies this
      ensures Valid()
      ensures h == old(nextHandle) && nextHandle == old(nextHandle) + 1
      ensures NeverCreated(old(log), h)
      ensures log == old(log) + [Command.CreateShader(stage, h)]
      ensures enabled == old(enabled) && activeProgram == old(activeProgram)
    {
      h := nextHandle;
      Create(Command.CreateShader(stage, h), h);
    }

    /** gl.createProgram: a new program object, whose handle no earlier
        command created. */
    method CreateProgram() returns (h: Handle)
      requires Valid()
      modifies this
      ensures Valid()
      ensures h == old(nextHandle) && nextHandle == old(nextHandle) + 1
      ensures NeverCreated(old(log), h)
      ensures log == old(log) + [Command.CreateProgram(h)]
      ensures enabled == old(enabled) && activeProgram == old(activeProgram)
    {
      h := nextHandle;
      Create(Command.CreateProgram(h), h);
    }

    /** Log the creation `c` of the object `h`, the next handle, and move the
        counter past it. */
    method Create(c: Command, h: Handle)
      requires Valid() && h == nextHandle
      requires Creates(c, h)
      modifies this
      ensures Valid()
      ensures nextHandle == old(nextHandle) + 1 && NeverCreated(old(log), h)
      ensures log == old(log) + [c]
      ensures enabled == old(enabled) && activeProgram == old(activeProgram)
    {
      ReplayAppend({}, log, [c]);
      LastUsedKept(log, [c]);
      BoundExcludes(log, h);
      assert (log + [c])[..|log|] == log;
      log := log + [c];
      nextHandle := nextHandle + 1;
    }

    /** gl.getAttribLocation, answered from the linked program's interface. */
    method GetAttribLocation(p: Handle, name: string, iface: Interface) returns (loc: int)
      requires Valid()
      modifies this
      ensures Valid()
      ensures loc == AttribLocation(iface, name)
      ensures log == old(log) + [Command.GetAttribLocation(p, name)]
      ensures enabled == old(enabled) && activeProgram == old(activeProgram)
      ensures nextHandle == old(nextHandle)
    {
      Send(Command.GetAttribLocation(p, name));
      loc := AttribLocation(iface, name);
    }

    /** gl.getUniformLocation, answered from the linked program's interface. */
    method GetUniformLocation(p: Handle, name: string, iface: Interface) returns (loc: UniformLoc)
      requires Valid()
      modifies this
      ensures Valid()
      ensures loc == UniformLocation(iface, name)
      ensures log == old(log) + [Command.GetUniformLocation(p, name)]
      ensures enabled == old(enabled) && activeProgram == old(activeProgram)
      ensures nextHandle == old(nextHandle)
    {
      Send(Command.GetUniformLocation(p, name));
      loc := UniformLocation(iface, name);
    }
  }
}
