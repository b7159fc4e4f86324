/** The protocol a shader program follows when it talks to the device, as
    values: the locations it resolved, the operations it offers, and the
    commands each operation sends. The `ShaderProgram` class is proved to
    send exactly these commands; the lemmas here say what they amount to. */
module Protocol {
  import opened Gl
  import opened Drawable

  /** The fixed channel vocabulary: three vertex attributes, thirteen uniforms. */
  datatype Attribute = Pos | Nor | Col
  datatype Uniform =
    | Model | ModelInvTr | ViewProj | Color | Time | HeightsInfo | CamPos
    | ShaderVariant | Octave | Bias | Freq | Height | Speed

  /** The names the shader source must use for each channel. */
  function AttributeName(a: Attribute): string {
    match a
    case Pos => "vs_Pos"
    case Nor => "vs_Nor"
    case Col => "vs_Col"
  }

  function UniformName(u: Uniform): string {
    match u
    case Model => "u_Model"
    case ModelInvTr => "u_ModelInvTr"
    case ViewProj => "u_ViewProj"
    case Color => "u_Color"
    case Time => "u_Time"
    case HeightsInfo => "u_HeightsInfo"
    case CamPos => "u_CamPos"
    case ShaderVariant => "u_Shader"
    case Octave => "u_Octave"
    case Bias => "u_Bias"
    case Freq => "u_Freq"
    case Height => "u_Height"
    case Speed => "u_Speed"
  }

  /** The declared semantic type of each uniform channel. */
  function ChannelType(u: Uniform): UniformType {
    match u
    case Model => Mat4Type
    case ModelInvTr => Mat4Type
    case ViewProj => Mat4Type
    case Color => Vec4Type
    case Time => FloatType
    case HeightsInfo => Vec4Type
    case CamPos => Vec3Type
    case ShaderVariant => IntType
    case Octave => IntType
    case Bias => FloatType
    case Freq => FloatType
    case Height => FloatType
    case Speed => FloatType
  }

  /** The locations a program resolved at link time; attributes use -1 for
      "absent", uniforms use `Absent`. */
  datatype Bindings = Bindings(
    attrPos: int, attrNor: int, attrCol: int,
    unifModel: UniformLoc, unifModelInvTr: UniformLoc, unifViewProj: UniformLoc,
    unifColor: UniformLoc, unifTime: UniformLoc, unifHeightsInfo: UniformLoc,
    unifCamPos: UniformLoc, unifShader: UniformLoc, unifOctave: UniformLoc,
    unifBias: UniformLoc, unifFreq: UniformLoc, unifHeight: UniformLoc,
    unifSpeed: UniformLoc)
  {
    function Slot(a: Attribute): int {
      match a
      case Pos => attrPos
      case Nor => attrNor
      case Col => attrCol
    }

    function Location(u: Uniform): UniformLoc {
      match u
      case Model => unifModel
      case ModelInvTr => unifModelInvTr
      case ViewProj => unifViewProj
      case Color => unifColor
      case Time => unifTime
      case HeightsInfo => unifHeightsInfo
      case CamPos => unifCamPos
      case ShaderVariant => unifShader
      case Octave => unifOctave
      case Bias => unifBias
      case Freq => unifFreq
      case Height => unifHeight
      case Speed => unifSpeed
    }
  }

  /** The lookups a successful link performs, in order: the attributes, the
      transforms, the surface parameters, then the noise parameters. */
  function Lookups(h: Handle): (r: seq<Command>)
    ensures |r| == 16
    ensures forall i :: 0 <= i < |r| ==> (r[i].GetAttribLocation? || r[i].GetUniformLocation?) && r[i].program == h
  {
    AttributeLookups(h) + TransformLookups(h) + SurfaceLookups(h) + NoiseLookups(h)
  }

  function AttributeLookups(h: Handle): seq<Command> {
    [GetAttribLocation(h, "vs_Pos"), GetAttribLocation(h, "vs_Nor"), GetAttribLocation(h, "vs_Col")]
  }

  function TransformLookups(h: Handle): seq<Command> {
    [GetUniformLocation(h, "u_Model"), GetUniformLocation(h, "u_ModelInvTr"), GetUniformLocation(h, "u_ViewProj")]
  }

  function SurfaceLookups(h: Handle): seq<Command> {
    [ GetUniformLocation(h, "u_Color"), GetUniformLocation(h, "u_Time"),
      GetUniformLocation(h, "u_HeightsInfo"), GetUniformLocation(h, "u_CamPos"),
      GetUniformLocation(h, "u_Shader") ]
  }

  function NoiseLookups(h: Handle): seq<Command> {
    [ GetUniformLocation(h, "u_Octave"), GetUniformLocation(h, "u_Bias"),
      GetUniformLocation(h, "u_Freq"), GetUniformLocation(h, "u_Height"),
      GetUniformLocation(h, "u_Speed") ]
  }

  /** The locations those lookups produce: each channel's is the device's
      answer for that channel's name. */
  function Resolve(iface: Interface): (r: Bindings)
    ensures forall a :: r.Slot(a) == AttribLocation(iface, AttributeName(a))
    ensures forall u :: r.Location(u) == UniformLocation(iface, UniformName(u))
  {
    Bindings(
      AttribLocation(iface, "vs_Pos"), AttribLocation(iface, "vs_Nor"), AttribLocation(iface, "vs_Col"),
      UniformLocation(iface, "u_Model"), UniformLocation(iface, "u_ModelInvTr"),
      UniformLocation(iface, "u_ViewProj"), UniformLocation(iface, "u_Color"),
      UniformLocation(iface, "u_Time"), UniformLocation(iface, "u_HeightsInfo"),
      UniformLocation(iface, "u_CamPos"), UniformLocation(iface, "u_Shader"),
      UniformLocation(iface, "u_Octave"), UniformLocation(iface, "u_Bias"),
      UniformLocation(iface, "u_Freq"), UniformLocation(iface, "u_Height"),
      UniformLocation(iface, "u_Speed"))
  }

  /** The public operations of a shader program. */
  datatype Op =
    | Use
    | SetModelMatrix(model: seq<real>)
    | SetViewProjMatrix(vp: seq<real>)
    | SetGeometryColor(color: seq<real>)
    | SetTime(t: real)
    | SetHeightsInfo(heightsInfo: seq<real>)
    | SetCamInfo(camPos: seq<real>)
    | SetShader(variant: int)
    | SetOctaves(octaves: int)
    | SetBias(bias: real)
    | SetFrequency(frequency: real)
    | SetTerrainHeight(height: real)
    | SetSpeed(speed: real)
    | Draw(geometry: Geometry)
  {
    /** The setters that write one uniform channel. */
    predicate SingleChannel() {
      !Use? && !SetModelMatrix? && !Draw?
    }

    /** The five setters whose code tests the shader-variant channel instead of
        their own. */
    predicate Misguarded() {
      SetOctaves? || SetBias? || SetFrequency? || SetTerrainHeight? || SetSpeed?
    }

    /** The channel a single-channel setter writes. */
    function Channel(): Uniform
      requires SingleChannel()
    {
      match this
      case SetViewProjMatrix(_) => ViewProj
      case SetGeometryColor(_) => Color
      case SetTime(_) => Time
      case SetHeightsInfo(_) => HeightsInfo
      case SetCamInfo(_) => CamPos
      case SetShader(_) => ShaderVariant
      case SetOctaves(_) => Octave
      case SetBias(_) => Bias
      case SetFrequency(_) => Freq
      case SetTerrainHeight(_) => Height
      case SetSpeed(_) => Speed
    }

    /** The value a single-channel setter pushes. */
    function Payload(): UniformValue
      requires SingleChannel()
    {
      match this
      case SetViewProjMatrix(vp) => Matrix4(Given(vp))
      case SetGeometryColor(color) => Vector4(color)
      case SetTime(t) => Float1(t)
      case SetHeightsInfo(info) => Vector4(info)
      case SetCamInfo(camPos) => Vector3(camPos)
      case SetShader(variant) => Int1(variant)
      case SetOctaves(octaves) => Int1(octaves)
      case SetBias(bias) => Float1(bias)
      case SetFrequency(frequency) => Float1(frequency)
      case SetTerrainHeight(height) => Float1(height)
      case SetSpeed(speed) => Float1(speed)
    }
  }

  /** What `use()` sends: nothing when the cache already holds `prog`,
      otherwise one activation of `prog`. */
  function Activation(active: Option<Handle>, prog: Handle): (r: seq<Command>)
    ensures r == [] <==> active == Some(prog)
    ensures |r| <= 1 && forall i :: 0 <= i < |r| ==> r[i] == UseProgram(prog)
  {
    if active == Some(prog) then [] else [UseProgram(prog)]
  }

  /** A uniform write made only when `guard` is present. */
  function WriteIf(guard: UniformLoc, loc: UniformLoc, v: UniformValue): seq<Command> {
    if guard != Absent then [UniformWrite(loc, v)] else []
  }

  /** Attribute set-up for one stream: the provider is asked only when the
      location is present; the slot is enabled only when it also has the stream. */
  function StreamSetup(slot: int, stream: Stream, present: bool): seq<Command> {
    if slot != -1 then
      [BindStream(stream)]
      + (if present then [EnableAttrib(slot), AttribPointer(slot, 4, FLOAT, false, 0, 0)] else [])
    else []
  }

  function StreamTeardown(slot: int): seq<Command> {
    if slot != -1 then [DisableAttrib(slot)] else []
  }

  /** Everything `draw` sends after `use()`: stream set-up, one indexed
      draw, teardown, and never a uniform write or a program bind. */
  function DrawCommands(l: Bindings, g: Geometry): (r: seq<Command>)
    ensures DrawElements(g.mode, g.count, UNSIGNED_INT, 0) in r
    ensures forall i :: 0 <= i < |r| ==> !r[i].UniformWrite? && !r[i].UseProgram?
  {
    StreamSetup(l.attrPos, PositionStream, g.hasPos)
    + StreamSetup(l.attrNor, NormalStream, g.hasNor)
    + [BindStream(IndexStream), DrawElements(g.mode, g.count, UNSIGNED_INT, 0)]
    + StreamTeardown(l.attrPos)
    + StreamTeardown(l.attrNor)
  }

  /** The commands an operation sends after its leading `use()`, as the code
      is written. Apart from `draw`, an operation sends at most two commands,
      all of them uniform writes. */
  function OpCommands(l: Bindings, op: Op): (r: seq<Command>)
    ensures !op.Draw? ==> |r| <= 2 && forall i :: 0 <= i < |r| ==> r[i].UniformWrite?
  {
    match op
    case Use => []
    case SetModelMatrix(m) =>
      WriteIf(l.unifModel, l.unifModel, Matrix4(Given(m)))
      + WriteIf(l.unifModelInvTr, l.unifModelInvTr, Matrix4(InverseTransposeOf(m)))
    case SetViewProjMatrix(vp) => WriteIf(l.unifViewProj, l.unifViewProj, Matrix4(Given(vp)))
    case SetGeometryColor(color) => WriteIf(l.unifColor, l.unifColor, Vector4(color))
    case SetTime(t) => WriteIf(l.unifTime, l.unifTime, Float1(t))
    case SetHeightsInfo(info) => WriteIf(l.unifHeightsInfo, l.unifHeightsInfo, Vector4(info))
    case SetCamInfo(camPos) => WriteIf(l.unifCamPos, l.unifCamPos, Vector3(camPos))
    case SetShader(variant) => WriteIf(l.unifShader, l.unifShader, Int1(variant))
    case SetOctaves(octaves) => WriteIf(l.unifShader, l.unifOctave, Int1(octaves))
    case SetBias(bias) => WriteIf(l.unifShader, l.unifBias, Float1(bias))
    case SetFrequency(frequency) => WriteIf(l.unifShader, l.unifFreq, Float1(frequency))
    case SetTerrainHeight(height) => WriteIf(l.unifShader, l.unifHeight, Float1(height))
    case SetSpeed(speed) => WriteIf(l.unifShader, l.unifSpeed, Float1(speed))
    case Draw(g) => DrawCommands(l, g)
  }

  /** The same operations with every setter guarded by its own channel: only
      the five misguarded setters differ, and each of them writes at most
      once, to a present location. */
  function IntendedCommands(l: Bindings, op: Op): (r: seq<Command>)
    ensures !op.Misguarded() ==> r == OpCommands(l, op)
    ensures op.Misguarded() ==> |r| <= 1 && forall i :: 0 <= i < |r| ==> r[i].UniformWrite? && r[i].loc != Absent
  {
    match op
    case SetOctaves(octaves) => WriteIf(l.unifOctave, l.unifOctave, Int1(octaves))
    case SetBias(bias) => WriteIf(l.unifBias, l.unifBias, Float1(bias))
    case SetFrequency(frequency) => WriteIf(l.unifFreq, l.unifFreq, Float1(frequency))
    case SetTerrainHeight(height) => WriteIf(l.unifHeight, l.unifHeight, Float1(height))
    case SetSpeed(speed) => WriteIf(l.unifSpeed, l.unifSpeed, Float1(speed))
    case _ => OpCommands(l, op)
  }

  /** `draw` sends the same commands under either reading of the guards. */
  lemma DrawOps(l: Bindings, g: Geometry)
    ensures OpCommands(l, Draw(g)) == DrawCommands(l, g)
    ensures IntendedCommands(l, Draw(g)) == DrawCommands(l, g)
  {
  }

  /** Which reading of the five misguarded setters a session follows. */
  datatype Guarding = AsWritten | OwnChannel

  function Commands(l: Bindings, op: Op, guarding: Guarding): seq<Command> {
    if guarding == AsWritten then OpCommands(l, op) else IntendedCommands(l, op)
  }

  /** One call of `op` on the program `prog` whose locations are `locs`. */
  datatype Call = Call(prog: Handle, locs: Bindings, op: Op)

  /** The device state after a call: the cache holds the program, the log has
      grown by the activation (if any) and the operation's commands, and the
      enabled set is what those commands make of it. */
  function Step(s: GlState, c: Call, guarding: Guarding): (r: GlState)
    ensures r.active == Some(c.prog) && s.log <= r.log
  {
    Apply(s, c.prog, Activation(s.active, c.prog) + Commands(c.locs, c.op, guarding))
  }

  /** The state after `prog`'s `use()` and then `cmds` have been sent. */
  function Apply(s: GlState, prog: Handle, cmds: seq<Command>): GlState {
    GlState(Some(prog), Replay(s.enabled, cmds), s.log + cmds)
  }

  /** A session of calls, possibly on different programs, on one device. */
  function Run(s: GlState, calls: seq<Call>, guarding: Guarding): (r: GlState)
    ensures s.log <= r.log
    ensures calls != [] ==> r.active == Some(calls[|calls| - 1].prog)
    decreases |calls|
  {
    if calls == [] then s
    else
      var next := Step(s, calls[0], guarding);
      var r := Run(next, calls[1..], guarding);
      assert |calls| > 1 ==> calls[1..][|calls[1..]| - 1] == calls[|calls| - 1];
      r
  }

  /** How many calls of a session target a program other than the one cached. */
  function Switches(active: Option<Handle>, calls: seq<Call>): nat
    decreases |calls|
  {
    if calls == [] then 0
    else (if active == Some(calls[0].prog) then 0 else 1) + Switches(Some(calls[0].prog), calls[1..])
  }

  /** The attribute slots `draw` disables afterwards. */
  function PresentSlots(l: Bindings): set<int> {
    (if l.attrPos != -1 then {l.attrPos} else {}) + (if l.attrNor != -1 then {l.attrNor} else {})
  }

  // ---------------------------------------------------------------------------
  // use() and the bind cache

  /** Besides its leading `use()`, no operation activates a program. */
  lemma OperationsDoNotActivate(l: Bindings, op: Op, guarding: Guarding)
    ensures NoActivation(Commands(l, op, guarding))
  {
  }

  /** A second `use()` right after the first sends nothing and changes nothing,
      so the pair sends at most one activation. */
  lemma UseIdempotent(s: GlState, prog: Handle, l: Bindings, guarding: Guarding)
    ensures var once := Step(s, Call(prog, l, Use), guarding);
            Step(once, Call(prog, l, Use), guarding) == once
            && once.active == Some(prog)
            && Activations(once.log) <= Activations(s.log) + 1
  {
    var once := Step(s, Call(prog, l, Use), guarding);
    var a := Activation(s.active, prog);
    assert Commands(l, Use, guarding) == [];
    assert a + [] == a;
    ActivationsAppend(s.log, a);
    assert Activations(a) <= 1 by {
      if a != [] { assert a[1..] == []; }
    }
    assert Replay(s.enabled, a) == s.enabled by {
      if a != [] { assert a[1..] == []; }
    }
    assert once.log + [] == once.log;
  }

  /** The cache stays sound across a call, and every command the call sends is
      sent while its own program is the one the device has bound. */
  lemma StepBindsOwnProgram(s: GlState, c: Call, guarding: Guarding)
    requires s.active == LastUsed(s.log)
    ensures var r := Step(s, c, guarding);
            r.active == LastUsed(r.log)
            && forall k :: |s.log| < k <= |r.log| ==> LastUsed(r.log[..k]) == Some(c.prog)
  {
    var a := Activation(s.active, c.prog);
    var b := Commands(c.locs, c.op, guarding);
    assert Step(s, c, guarding).log == s.log + a + b;
    OperationsDoNotActivate(c.locs, c.op, guarding);
    BoundThroughout(s.log, s.active, c.prog, b);
  }

  /** After `use()` of `prog`, commands that activate nothing are all sent
      with `prog` bound. */
  lemma {:induction false} BoundThroughout(log: seq<Command>, active: Option<Handle>, prog: Handle, b: seq<Command>)
    requires active == LastUsed(log)
    requires NoActivation(b)
    ensures var all := log + Activation(active, prog) + b;
            LastUsed(all) == Some(prog)
            && forall k :: |log| < k <= |all| ==> LastUsed(all[..k]) == Some(prog)
  {
    var a := Activation(active, prog);
    var all := log + a + b;
    assert LastUsed(log + a) == Some(prog) by {
      if a == [] {
        assert log + a == log;
      } else {
        assert (log + a)[..|log + a| - 1] == log;
      }
    }
    assert all == (log + a) + b;
    LastUsedKept(log + a, b);
    forall k | |log| < k <= |all|
      ensures LastUsed(all[..k]) == Some(prog)
    {
      var j := k - |log + a|;
      assert all[..k] == (log + a) + b[..j];
      assert NoActivation(b[..j]);
      LastUsedKept(log + a, b[..j]);
    }
  }

  /** Over any session on any programs the cache never disagrees with the
      program the device has bound. */
  lemma {:induction false} RunKeepsCacheSound(s: GlState, calls: seq<Call>, guarding: Guarding)
    requires s.active == LastUsed(s.log)
    ensures var r := Run(s, calls, guarding); r.active == LastUsed(r.log)
    decreases |calls|
  {
    if calls != [] {
      StepBindsOwnProgram(s, calls[0], guarding);
      RunKeepsCacheSound(Step(s, calls[0], guarding), calls[1..], guarding);
    }
  }

  /** A session sends exactly one activation per switch of program, and none
      for calls on the program already cached. */
  lemma {:induction false} RunActivations(s: GlState, calls: seq<Call>, guarding: Guarding)
    ensures Activations(Run(s, calls, guarding).log) == Activations(s.log) + Switches(s.active, calls)
    decreases |calls|
  {
    if calls != [] {
      var c := calls[0];
      var a := Activation(s.active, c.prog);
      var b := Commands(c.locs, c.op, guarding);
      OperationsDoNotActivate(c.locs, c.op, guarding);
      NoActivationCount(b);
      ActivationsAppend(a, b);
      ActivationsAppend(s.log, a + b);
      assert Activations(a) == (if s.active == Some(c.prog) then 0 else 1) by {
        if a != [] { assert a[1..] == []; }
      }
      RunActivations(Step(s, c, guarding), calls[1..], guarding);
    }
  }

  /** Calls that all target the cached program send no activation at all. */
  lemma {:induction false} SameProgramNeverRebinds(s: GlState, prog: Handle, calls: seq<Call>, guarding: Guarding)
    requires s.active == Some(prog)
    requires forall i :: 0 <= i < |calls| ==> calls[i].prog == prog
    ensures Activations(Run(s, calls, guarding).log) == Activations(s.log)
  {
    assert Switches(s.active, calls) == 0 by {
      SwitchesNone(prog, calls);
    }
    RunActivations(s, calls, guarding);
  }

  lemma {:induction false} SwitchesNone(prog: Handle, calls: seq<Call>)
    requires forall i :: 0 <= i < |calls| ==> calls[i].prog == prog
    ensures Switches(Some(prog), calls) == 0
    decreases |calls|
  {
    if calls != [] {
      SwitchesNone(prog, calls[1..]);
    }
  }

  // ---------------------------------------------------------------------------
  // Setters

  /** The guard the code tests for each single-channel setter: its own channel,
      except for the five that test the shader-variant channel. */
  function GuardAsWritten(op: Op): Uniform
    requires op.SingleChannel()
  {
    if op.Misguarded() then ShaderVariant else op.Channel()
  }

  /** Every single-channel setter sends, after `use()`, either nothing or one
      write of its argument, by the transfer of its channel's declared type, to
      its own channel's location; as written the write happens exactly when
      the guard channel is present. */
  lemma SetterContract(l: Bindings, op: Op)
    requires op.SingleChannel()
    ensures op.Payload().Type() == ChannelType(op.Channel())
    ensures OpCommands(l, op) ==
            if l.Location(GuardAsWritten(op)) != Absent
            then [UniformWrite(l.Location(op.Channel()), op.Payload())] else []
    ensures IntendedCommands(l, op) ==
            if l.Location(op.Channel()) != Absent
            then [UniformWrite(l.Location(op.Channel()), op.Payload())] else []
  {
  }

  /** The five misguarded setters write exactly when the shader-variant channel
      is present, whatever their own location is. */
  lemma MisguardedSettersFollowVariant(l: Bindings, op: Op, own: UniformLoc)
    requires op.Misguarded()
    ensures |OpCommands(l, op)| == (if l.unifShader != Absent then 1 else 0)
    ensures var l' := match op
              case SetOctaves(_) => l.(unifOctave := own)
              case SetBias(_) => l.(unifBias := own)
              case SetFrequency(_) => l.(unifFreq := own)
              case SetTerrainHeight(_) => l.(unifHeight := own)
              case _ => l.(unifSpeed := own);
            |OpCommands(l', op)| == |OpCommands(l, op)|
  {
  }

  /** setModelMatrix writes the model matrix iff its location is present, then
      the inverse transpose of the same matrix iff its location is present. */
  lemma ModelMatrixContract(l: Bindings, m: seq<real>)
    ensures var cmds := OpCommands(l, SetModelMatrix(m));
            var model := UniformWrite(l.unifModel, Matrix4(Given(m)));
            var invTr := UniformWrite(l.unifModelInvTr, Matrix4(InverseTransposeOf(m)));
            && (model in cmds <==> l.unifModel != Absent)
            && (invTr in cmds <==> l.unifModelInvTr != Absent)
            && (l.unifModel != Absent && l.unifModelInvTr != Absent ==> cmds == [model, invTr])
            && (l.unifModel == Absent && l.unifModelInvTr == Absent ==> cmds == [])
            && |cmds| == (if l.unifModel != Absent then 1 else 0) + (if l.unifModelInvTr != Absent then 1 else 0)
            && forall i :: 0 <= i < |cmds| ==> cmds[i].UniformWrite?
  {
  }

  /** With every setter guarded by its own channel, no operation ever writes
      to an absent location. */
  lemma IntendedSkipsAbsent(l: Bindings, op: Op)
    ensures forall v :: UniformWrite(Absent, v) !in IntendedCommands(l, op)
  {
    if op.Draw? {
      var g := op.geometry;
      assert IntendedCommands(l, op) == DrawCommands(l, g);
    }
  }

  /** As written, setOctaves writes to the absent octave location whenever the
      shader-variant channel is present. */
  lemma AsWrittenWritesAbsent(octaves: int)
    ensures var l := Bindings(-1, -1, -1, Absent, Absent, Absent, Absent, Absent, Absent,
                              Absent, Loc(0), Absent, Absent, Absent, Absent, Absent);
            UniformWrite(Absent, Int1(octaves)) in OpCommands(l, SetOctaves(octaves))
  {
  }

  /** A session that guards every setter by its own channel adds no write to an
      absent location to the log. */
  lemma {:induction false} RunOwnChannelSkipsAbsent(s: GlState, calls: seq<Call>)
    requires forall v :: UniformWrite(Absent, v) !in s.log
    ensures forall v :: UniformWrite(Absent, v) !in Run(s, calls, OwnChannel).log
    decreases |calls|
  {
    if calls != [] {
      var c := calls[0];
      var r := Step(s, c, OwnChannel);
      IntendedSkipsAbsent(c.locs, c.op);
      forall v ensures UniformWrite(Absent, v) !in r.log {
        var a := Activation(s.active, c.prog);
        assert r.log == s.log + a + IntendedCommands(c.locs, c.op);
      }
      RunOwnChannelSkipsAbsent(r, calls[1..]);
      assert Run(s, calls, OwnChannel) == Run(r, calls[1..], OwnChannel);
    }
  }

  // ---------------------------------------------------------------------------
  // draw

  /** `draw` makes the index stream current once and issues exactly one
      indexed draw, with the provider's topology and count, 32-bit indices and
      offset 0, right after that; it writes no uniform and activates nothing. */
  lemma DrawIssuesOneIndexedDraw(l: Bindings, g: Geometry)
    ensures var cmds := OpCommands(l, Draw(g));
            var draw := DrawElements(g.mode, g.count, UNSIGNED_INT, 0);
            && multiset(cmds)[draw] == 1
            && (forall i :: 0 <= i < |cmds| && cmds[i].DrawElements? ==> cmds[i] == draw)
            && multiset(cmds)[BindStream(IndexStream)] == 1
            && (exists i :: 0 <= i < |cmds| - 1 && cmds[i] == BindStream(IndexStream) && cmds[i + 1] == draw)
            && (forall i :: 0 <= i < |cmds| ==> !cmds[i].UniformWrite? && !cmds[i].UseProgram?)
  {
    var pre := StreamSetup(l.attrPos, PositionStream, g.hasPos) + StreamSetup(l.attrNor, NormalStream, g.hasNor);
    var post := StreamTeardown(l.attrPos) + StreamTeardown(l.attrNor);
    DrawShape(l, g);
    DrawSidesAreAttributeWork(l, g);
    AroundAttributeWork(pre, DrawElements(g.mode, g.count, UNSIGNED_INT, 0), post);
  }

  /** `draw` is its set-up, the index bind and draw, then its teardown. */
  lemma DrawShape(l: Bindings, g: Geometry)
    ensures OpCommands(l, Draw(g)) ==
            (StreamSetup(l.attrPos, PositionStream, g.hasPos) + StreamSetup(l.attrNor, NormalStream, g.hasNor))
            + [BindStream(IndexStream), DrawElements(g.mode, g.count, UNSIGNED_INT, 0)]
            + (StreamTeardown(l.attrPos) + StreamTeardown(l.attrNor))
  {
  }

  lemma DrawSidesAreAttributeWork(l: Bindings, g: Geometry)
    ensures AttributeWork(StreamSetup(l.attrPos, PositionStream, g.hasPos) + StreamSetup(l.attrNor, NormalStream, g.hasNor))
    ensures AttributeWork(StreamTeardown(l.attrPos) + StreamTeardown(l.attrNor))
  {
    StreamSetupIsAttributeWork(l.attrPos, PositionStream, g.hasPos);
    StreamSetupIsAttributeWork(l.attrNor, NormalStream, g.hasNor);
    AttributeWorkAppend(StreamSetup(l.attrPos, PositionStream, g.hasPos), StreamSetup(l.attrNor, NormalStream, g.hasNor));
    AttributeWorkAppend(StreamTeardown(l.attrPos), StreamTeardown(l.attrNor));
  }

  /** An index bind followed by a draw, surrounded by attribute work only. */
  lemma AroundAttributeWork(pre: seq<Command>, draw: Command, post: seq<Command>)
    requires draw.DrawElements?
    requires AttributeWork(pre) && AttributeWork(post)
    ensures var cmds := pre + [BindStream(IndexStream), draw] + post;
            && multiset(cmds)[draw] == 1
            && (forall i :: 0 <= i < |cmds| && cmds[i].DrawElements? ==> cmds[i] == draw)
            && multiset(cmds)[BindStream(IndexStream)] == 1
            && (exists i :: 0 <= i < |cmds| - 1 && cmds[i] == BindStream(IndexStream) && cmds[i + 1] == draw)
            && (forall i :: 0 <= i < |cmds| ==> !cmds[i].UniformWrite? && !cmds[i].UseProgram?)
  {
    var mid := [BindStream(IndexStream), draw];
    var cmds := pre + mid + post;
    assert draw !in pre && draw !in post;
    assert BindStream(IndexStream) !in pre && BindStream(IndexStream) !in post;
    assert multiset(mid)[draw] == 1 && multiset(mid)[BindStream(IndexStream)] == 1;
    assert cmds[|pre|] == BindStream(IndexStream) && cmds[|pre| + 1] == draw;
  }

  /** Commands that only ask for a vertex stream or touch attribute slots. */
  predicate AttributeWork(cmds: seq<Command>) {
    forall i :: 0 <= i < |cmds| ==>
      cmds[i].EnableAttrib? || cmds[i].DisableAttrib? || cmds[i].AttribPointer?
      || cmds[i] == BindStream(PositionStream) || cmds[i] == BindStream(NormalStream)
  }

  lemma AttributeWorkAppend(a: seq<Command>, b: seq<Command>)
    requires AttributeWork(a) && AttributeWork(b)
    ensures AttributeWork(a + b)
  {
    forall i | 0 <= i < |a + b| ensures (a + b)[i] == if i < |a| then a[i] else b[i - |a|] {}
  }

  lemma StreamSetupIsAttributeWork(slot: int, stream: Stream, present: bool)
    requires stream != IndexStream
    ensures AttributeWork(StreamSetup(slot, stream, present))
  {
  }

  /** What one stream set-up may contain. */
  lemma SetupMembers(slot: int, stream: Stream, present: bool)
    ensures forall c :: c in StreamSetup(slot, stream, present) <==>
              slot != -1 && (c == BindStream(stream)
                || (present && (c == EnableAttrib(slot) || c == AttribPointer(slot, 4, FLOAT, false, 0, 0))))
  {
  }

  lemma TeardownMembers(slot: int)
    ensures forall c :: c in StreamTeardown(slot) <==> slot != -1 && c == DisableAttrib(slot)
  {
  }

  /** A command is in `draw`'s output iff it is in one of its five parts. */
  lemma DrawMembers(l: Bindings, g: Geometry)
    ensures forall c :: c in OpCommands(l, Draw(g)) <==>
              c in StreamSetup(l.attrPos, PositionStream, g.hasPos)
              || c in StreamSetup(l.attrNor, NormalStream, g.hasNor)
              || c == BindStream(IndexStream) || c == DrawElements(g.mode, g.count, UNSIGNED_INT, 0)
              || c in StreamTeardown(l.attrPos) || c in StreamTeardown(l.attrNor)
  {
    var posUp := StreamSetup(l.attrPos, PositionStream, g.hasPos);
    var norUp := StreamSetup(l.attrNor, NormalStream, g.hasNor);
    var mid := [BindStream(IndexStream), DrawElements(g.mode, g.count, UNSIGNED_INT, 0)];
    var posDown := StreamTeardown(l.attrPos);
    var norDown := StreamTeardown(l.attrNor);
    assert OpCommands(l, Draw(g)) == (((posUp + norUp) + mid) + posDown) + norDown;
  }

  /** The provider is asked for a stream only when the matching location is
      present, and a slot is enabled exactly when the location is present and
      the provider has the stream. The color attribute is never enabled. */
  lemma DrawEnablesOnlyWhatBothHave(l: Bindings, g: Geometry)
    ensures var cmds := OpCommands(l, Draw(g));
            && (BindStream(PositionStream) in cmds <==> l.attrPos != -1)
            && (BindStream(NormalStream) in cmds <==> l.attrNor != -1)
            && (forall x :: EnableAttrib(x) in cmds <==>
                  (x == l.attrPos && l.attrPos != -1 && g.hasPos)
                  || (x == l.attrNor && l.attrNor != -1 && g.hasNor))
            && (l.attrCol != l.attrPos && l.attrCol != l.attrNor ==> EnableAttrib(l.attrCol) !in cmds)
  {
    DrawMembers(l, g);
    SetupMembers(l.attrPos, PositionStream, g.hasPos);
    SetupMembers(l.attrNor, NormalStream, g.hasNor);
    TeardownMembers(l.attrPos);
    TeardownMembers(l.attrNor);
  }

  /** `draw` disables exactly the present position and normal slots. */
  lemma DrawDisablesPresentSlots(l: Bindings, g: Geometry)
    ensures forall x :: DisableAttrib(x) in OpCommands(l, Draw(g)) <==> x in PresentSlots(l)
  {
    DrawMembers(l, g);
    SetupMembers(l.attrPos, PositionStream, g.hasPos);
    SetupMembers(l.attrNor, NormalStream, g.hasNor);
    TeardownMembers(l.attrPos);
    TeardownMembers(l.attrNor);
  }

  /** Replaying `draw` removes the present slots from the enabled set: what
      it enabled it disables again, and a present slot that was enabled before
      ends disabled too. */
  lemma DrawReplay(e: set<int>, l: Bindings, g: Geometry)
    ensures Replay(e, OpCommands(l, Draw(g))) == e - PresentSlots(l)
  {
    var posUp := StreamSetup(l.attrPos, PositionStream, g.hasPos);
    var norUp := StreamSetup(l.attrNor, NormalStream, g.hasNor);
    var mid := [BindStream(IndexStream), DrawElements(g.mode, g.count, UNSIGNED_INT, 0)];
    var posDown := StreamTeardown(l.attrPos);
    var norDown := StreamTeardown(l.attrNor);
    var cmds := OpCommands(l, Draw(g));
    assert cmds == (((posUp + norUp) + mid) + posDown) + norDown;
    var e1 := Replay(e, posUp);
    assert e1 == if l.attrPos != -1 && g.hasPos then e + {l.attrPos} else e by {
      ReplayUp(e, l.attrPos, PositionStream, g.hasPos);
    }
    var e2 := Replay(e1, norUp);
    assert e2 == if l.attrNor != -1 && g.hasNor then e1 + {l.attrNor} else e1 by {
      ReplayUp(e1, l.attrNor, NormalStream, g.hasNor);
    }
    var e3 := Replay(e2, mid);
    assert e3 == e2 by {
      ReplayCons(e2, mid[0], [mid[1]]);
      ReplayCons(e2, mid[1], []);
      assert mid == [mid[0]] + [mid[1]];
    }
    var e4 := Replay(e3, posDown);
    assert e4 == if l.attrPos != -1 then e3 - {l.attrPos} else e3 by {
      ReplayDown(e3, l.attrPos);
    }
    var e5 := Replay(e4, norDown);
    assert e5 == if l.attrNor != -1 then e4 - {l.attrNor} else e4 by {
      ReplayDown(e4, l.attrNor);
    }
    ReplayAppend(e, posUp, norUp);
    ReplayAppend(e, posUp + norUp, mid);
    ReplayAppend(e, (posUp + norUp) + mid, posDown);
    ReplayAppend(e, ((posUp + norUp) + mid) + posDown, norDown);
  }

  /** After `draw`, the position and normal slots are disabled whenever their
      locations are present, whether or not they were enabled; so no slot that
      `draw` enabled stays enabled. */
  lemma {:induction false} DrawRestoresAttributes(e: set<int>, l: Bindings, g: Geometry)
    ensures var cmds := OpCommands(l, Draw(g));
            && Replay(e, cmds) == e - PresentSlots(l)
            && (forall x :: DisableAttrib(x) in cmds <==> x in PresentSlots(l))
            && (forall x :: EnableAttrib(x) in cmds ==> x !in Replay(e, cmds))
  {
    DrawReplay(e, l, g);
    DrawDisablesPresentSlots(l, g);
    DrawEnablesOnlyWhatBothHave(l, g);
  }

  lemma ReplayUp(e: set<int>, slot: int, stream: Stream, present: bool)
    ensures Replay(e, StreamSetup(slot, stream, present)) ==
            if slot != -1 && present then e + {slot} else e
  {
    if slot != -1 {
      var pointer := AttribPointer(slot, 4, FLOAT, false, 0, 0);
      ReplayCons(e, BindStream(stream), if present then [EnableAttrib(slot), pointer] else []);
      if present {
        ReplayCons(e, EnableAttrib(slot), [pointer]);
        ReplayCons(e + {slot}, pointer, []);
      }
    }
  }

  lemma ReplayDown(e: set<int>, slot: int)
    ensures Replay(e, StreamTeardown(slot)) == if slot != -1 then e - {slot} else e
  {
    if slot != -1 {
      ReplayCons(e, DisableAttrib(slot), []);
    }
  }

  lemma ReplayCons(e: set<int>, c: Command, rest: seq<Command>)
    ensures Replay(e, [c] + rest) == Replay(Toggle(e, c), rest)
  {
    assert ([c] + rest)[1..] == rest;
  }

  /** Only `draw` touches the attribute arrays, and it only disables. */
  lemma {:induction false} StepEnabled(s: GlState, c: Call, guarding: Guarding)
    ensures Step(s, c, guarding).enabled ==
            if c.op.Draw? then s.enabled - PresentSlots(c.locs) else s.enabled
  {
    var a := Activation(s.active, c.prog);
    var b := Commands(c.locs, c.op, guarding);
    ReplayAppend(s.enabled, a, b);
    assert Replay(s.enabled, a) == s.enabled by {
      if a != [] { assert a[1..] == []; }
    }
    if c.op.Draw? {
      assert b == OpCommands(c.locs, Draw(c.op.geometry));
      DrawRestoresAttributes(s.enabled, c.locs, c.op.geometry);
    } else {
      ReplayNoAttribute(s.enabled, b);
    }
  }

  lemma {:induction false} ReplayNoAttribute(e: set<int>, cmds: seq<Command>)
    requires forall i :: 0 <= i < |cmds| ==> !cmds[i].EnableAttrib? && !cmds[i].DisableAttrib?
    ensures Replay(e, cmds) == e
    decreases |cmds|
  {
    if cmds != [] {
      ReplayNoAttribute(e, cmds[1..]);
    }
  }

  /** No session ever leaves an attribute array enabled that was not enabled
      before it; from a fresh device, none is ever left enabled. */
  lemma {:induction false} RunNeverEnablesNewSlots(s: GlState, calls: seq<Call>, guarding: Guarding)
    ensures Run(s, calls, guarding).enabled <= s.enabled
    decreases |calls|
  {
    if calls != [] {
      StepEnabled(s, calls[0], guarding);
      RunNeverEnablesNewSlots(Step(s, calls[0], guarding), calls[1..], guarding);
    }
  }

  // ---------------------------------------------------------------------------
  // Link-time resolution

  /** A successful link looks every channel up exactly once, by its fixed name,
      and looks up nothing else. */
  lemma LookupsOncePerChannel(h: Handle)
    ensures |Lookups(h)| == 16
    ensures forall a :: multiset(Lookups(h))[GetAttribLocation(h, AttributeName(a))] == 1
    ensures forall u :: multiset(Lookups(h))[GetUniformLocation(h, UniformName(u))] == 1
  {
    var cmds := Lookups(h);
    LookupsDistinct(h);
    forall a ensures multiset(cmds)[GetAttribLocation(h, AttributeName(a))] == 1 {
      DistinctOnce(cmds, GetAttribLocation(h, AttributeName(a)));
    }
    forall u ensures multiset(cmds)[GetUniformLocation(h, UniformName(u))] == 1 {
      DistinctOnce(cmds, GetUniformLocation(h, UniformName(u)));
    }
  }

  /** No lookup is repeated. */
  lemma LookupsDistinct(h: Handle)
    ensures Distinct(Lookups(h))
  {
    var cmds := Lookups(h);
    forall i, j | 0 <= i < j < |cmds| ensures cmds[i] != cmds[j] {
      assert cmds[i].name != cmds[j].name;
    }
  }

  predicate Distinct<T(==)>(s: seq<T>) {
    forall i, j :: 0 <= i < j < |s| ==> s[i] != s[j]
  }

  /** In a sequence without repetitions every member occurs once. */
  lemma {:induction false} DistinctOnce<T>(s: seq<T>, x: T)
    requires Distinct(s) && x in s
    ensures multiset(s)[x] == 1
    decreases |s|
  {
    assert s == [s[0]] + s[1..];
    if s[0] == x {
      assert x !in s[1..];
    } else {
      DistinctOnce(s[1..], x);
    }
  }

  /** A stored uniform location is absent exactly when the linked program
      does not use that channel's name. */
  lemma ResolveByName(iface: Interface)
    ensures forall u :: Resolve(iface).Location(u) == Absent <==> UniformName(u) !in iface.uniforms
  {
  }

  /** A shader that declares only `u_Time` and `u_ViewProj`: every other
      uniform is absent, setGeometryColor sends no write, and setTime(1.5)
      sends exactly one float write of 1.5. */
  lemma OnlyTimeAndViewProj(time: nat, viewProj: nat)
    ensures var iface := Interface(map[], map["u_Time" := time, "u_ViewProj" := viewProj]);
            var l := Resolve(iface);
            && (forall u :: u != Time && u != ViewProj ==> l.Location(u) == Absent)
            && (forall c :: OpCommands(l, SetGeometryColor(c)) == [])
            && OpCommands(l, SetTime(1.5)) == [UniformWrite(Loc(time), Float1(1.5))]
  {
  }
}
