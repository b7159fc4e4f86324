/** Compiled shader stages and the linked shader program with its resolved
    channel locations, its bind cache protocol, its uniform setters and its
    draw call. Each operation is proved to send exactly the commands
    `Protocol` describes for it. */
module ShaderProgram {
  import opened Gl
  import opened Protocol
  import opened Drawable

  /** Construction either succeeds or throws the device's info log. */
  datatype Result<T> = Ok(value: T) | Err(info: string)

  /** A compiled shader stage; immutable once built. */
  datatype Shader = Shader(stage: int, shader: Handle)

  /** Create a shader object of the given stage, submit its source and compile
      it. `compiles` and `infoLog` are the device's verdict and diagnostics;
      a failed compilation throws the log and yields no shader. */
  method NewShader(dev: Device, stage: int, source: string, compiles: bool, infoLog: string)
      returns (r: Result<Shader>)
    requires dev.Valid()
    modifies dev
    ensures dev.Valid()
    ensures var h := old(dev.nextHandle);
            && dev.log == old(dev.log) + [CreateShader(stage, h), ShaderSource(h, source), CompileShader(h)]
            && r == if compiles then Ok(Shader(stage, h)) else Err(infoLog)
    ensures dev.nextHandle == old(dev.nextHandle) + 1 && NeverCreated(old(dev.log), old(dev.nextHandle))
    ensures dev.activeProgram == old(dev.activeProgram) && dev.enabled == old(dev.enabled)
  {
    var h := dev.CreateShader(stage);
    dev.Send(ShaderSource(h, source));
    dev.Send(CompileShader(h));
    if !compiles {
      return Err(infoLog);
    }
    r := Ok(Shader(stage, h));
  }

  /** The attachments of `shaders` to program `h`, in order. */
  function Attachments(h: Handle, shaders: seq<Shader>): seq<Command>
    decreases |shaders|
  {
    if shaders == [] then []
    else Attachments(h, shaders[..|shaders| - 1]) + [AttachShader(h, shaders[|shaders| - 1].shader)]
  }

  /** Create program `h`, attach every shader, request the link. */
  function Linking(h: Handle, shaders: seq<Shader>): seq<Command> {
    [CreateProgram(h)] + Attachments(h, shaders) + [LinkProgram(h)]
  }

  /** Every shader handed to the link is attached exactly in the given order. */
  lemma {:induction false} AttachmentsInOrder(h: Handle, shaders: seq<Shader>)
    ensures |Attachments(h, shaders)| == |shaders|
    ensures forall i :: 0 <= i < |shaders| ==> Attachments(h, shaders)[i] == AttachShader(h, shaders[i].shader)
    decreases |shaders|
  {
    if shaders != [] {
      var init := shaders[..|shaders| - 1];
      AttachmentsInOrder(h, init);
      assert forall i :: 0 <= i < |init| ==> init[i] == shaders[i];
    }
  }

  /** A device whose log grew by `cmds` after `prog`'s `use()` is in the
      state `Protocol.Apply` describes. */
  lemma Settle(s0: GlState, s1: GlState, prog: Handle, cmds: seq<Command>)
    requires s0.enabled == Replay({}, s0.log) && s1.enabled == Replay({}, s1.log)
    requires s1.active == Some(prog)
    requires s1.log == s0.log + cmds
    ensures s1 == Apply(s0, prog, cmds)
  {
    ReplayAppend({}, s0.log, cmds);
  }

  /** A draw whose activation and commands the device has logged is one
      `Step` of the protocol. */
  lemma DrawSettles(s0: GlState, s1: GlState, prog: Handle, locs: Bindings, g: Geometry)
    requires s0.enabled == Replay({}, s0.log) && s1.enabled == Replay({}, s1.log)
    requires s1.active == Some(prog)
    requires s1.log == s0.log + Activation(s0.active, prog) + DrawCommands(locs, g)
    ensures s1 == Step(s0, Call(prog, locs, Protocol.Draw(g)), AsWritten)
  {
    var cmds := Activation(s0.active, prog) + DrawCommands(locs, g);
    Assoc(s0.log, Activation(s0.active, prog), DrawCommands(locs, g));
    Settle(s0, s1, prog, cmds);
    DrawOps(locs, g);
  }

  lemma Regroup(u: seq<Command>, a: seq<Command>, b: seq<Command>, c: seq<Command>, d: seq<Command>, e: seq<Command>)
    ensures u + a + b + c + d + e == u + (a + b + c + d + e)
  {
  }

  lemma Regroup4(u: seq<Command>, a: seq<Command>, b: seq<Command>, c: seq<Command>, d: seq<Command>)
    ensures u + a + b + c + d == u + (a + b + c + d)
  {
  }

  lemma Assoc(x: seq<Command>, a: seq<Command>, b: seq<Command>)
    ensures x + a + b == x + (a + b)
  {
  }

  class ShaderProgram {
    const prog: Handle
    /** What the linked program reports about its inputs. */
    ghost const iface: Interface
    const locs: Bindings

    /** Only a linked program's own lookups make a `ShaderProgram`. */
    constructor (prog: Handle, ghost iface: Interface, locs: Bindings)
      requires locs == Resolve(iface)
      ensures this.prog == prog && this.iface == iface && this.locs == locs
    {
      this.prog := prog;
      this.iface := iface;
      this.locs := locs;
    }

    /** Create a program from `shaders` and link it. `links` and `infoLog` are
        the device's verdict and diagnostics, `iface` what the linked program
        reports about its inputs. A failed link throws the log before any
        location is looked up; a successful one looks up every channel once,
        by its fixed name, and keeps the answers. */
    static method Link(dev: Device, shaders: seq<Shader>, links: bool, infoLog: string, iface: Interface)
        returns (r: Result<ShaderProgram>)
      requires dev.Valid()
      modifies dev
      ensures dev.Valid()
      ensures dev.nextHandle == old(dev.nextHandle) + 1 && NeverCreated(old(dev.log), old(dev.nextHandle))
      ensures dev.activeProgram == old(dev.activeProgram) && dev.enabled == old(dev.enabled)
      ensures var h := old(dev.nextHandle);
              if links then
                && r.Ok? && fresh(r.value)
                && r.value.prog == h && r.value.iface == iface && r.value.locs == Resolve(iface)
                && dev.log == old(dev.log) + Linking(h, shaders) + Lookups(h)
              else
                && r == Err(infoLog)
                && dev.log == old(dev.log) + Linking(h, shaders)
    {
      var h := dev.CreateProgram();
      ghost var created := dev.log;
      AttachAll(dev, h, shaders);
      ghost var attached := dev.log;
      dev.Send(LinkProgram(h));
      if !links {
        return Err(infoLog);
      }
      assert dev.log == old(dev.log) + Linking(h, shaders);
      var locs := LookUpAll(dev, h, iface);
      var p := new ShaderProgram(h, iface, locs);
      r := Ok(p);
    }

    /** ShaderProgram.ts lines 45-47: attach the shaders to program `h` in
        the given order. */
    static method AttachAll(dev: Device, h: Handle, shaders: seq<Shader>)
      requires dev.Valid()
      modifies dev
      ensures dev.Valid() && dev.nextHandle == old(dev.nextHandle)
      ensures dev.activeProgram == old(dev.activeProgram) && dev.enabled == old(dev.enabled)
      ensures dev.log == old(dev.log) + Attachments(h, shaders)
    {
      for i := 0 to |shaders|
        invariant dev.Valid() && dev.nextHandle == old(dev.nextHandle)
        invariant dev.activeProgram == old(dev.activeProgram) && dev.enabled == old(dev.enabled)
        invariant dev.log == old(dev.log) + Attachments(h, shaders[..i])
      {
        dev.Send(AttachShader(h, shaders[i].shader));
        assert shaders[..i + 1][..i] == shaders[..i];
      }
      assert shaders[..|shaders|] == shaders;
    }

    /** ShaderProgram.ts lines 53-69: look up every channel of a linked
        program by its fixed name, in declaration order. */
    static method LookUpAll(dev: Device, h: Handle, iface: Interface) returns (locs: Bindings)
      requires dev.Valid()
      modifies dev
      ensures dev.Valid() && dev.nextHandle == old(dev.nextHandle)
      ensures dev.activeProgram == old(dev.activeProgram) && dev.enabled == old(dev.enabled)
      ensures dev.log == old(dev.log) + Lookups(h)
      ensures locs == Resolve(iface)
    {
      var attrPos, attrNor, attrCol := LookUpAttributes(dev, h, iface);
      var unifModel, unifModelInvTr, unifViewProj := LookUpTransforms(dev, h, iface);
      var unifColor, unifTime, unifHeightsInfo, unifCamPos, unifShader := LookUpSurface(dev, h, iface);
      var unifOctave, unifBias, unifFreq, unifHeight, unifSpeed := LookUpNoise(dev, h, iface);
      Regroup4(old(dev.log), AttributeLookups(h), TransformLookups(h), SurfaceLookups(h), NoiseLookups(h));
      locs := Bindings(attrPos, attrNor, attrCol,
        unifModel, unifModelInvTr, unifViewProj, unifColor, unifTime, unifHeightsInfo,
        unifCamPos, unifShader, unifOctave, unifBias, unifFreq, unifHeight, unifSpeed);
    }

    /** The attribute lookups of a linked program. */
    static method LookUpAttributes(dev: Device, h: Handle, iface: Interface) returns (pos: int, nor: int, col: int)
      requires dev.Valid()
      modifies dev
      ensures dev.Valid() && dev.nextHandle == old(dev.nextHandle)
      ensures dev.activeProgram == old(dev.activeProgram) && dev.enabled == old(dev.enabled)
      ensures dev.log == old(dev.log) + AttributeLookups(h)
      ensures pos == AttribLocation(iface, "vs_Pos") && nor == AttribLocation(iface, "vs_Nor")
      ensures col == AttribLocation(iface, "vs_Col")
    {
      ghost var before := dev.log;
      pos := dev.GetAttribLocation(h, "vs_Pos", iface);
      nor := dev.GetAttribLocation(h, "vs_Nor", iface);
      col := dev.GetAttribLocation(h, "vs_Col", iface);
      assert dev.log == before + [GetAttribLocation(h, "vs_Pos")] + [GetAttribLocation(h, "vs_Nor")]
        + [GetAttribLocation(h, "vs_Col")];
    }

    /** The lookups of the model and view-projection transforms. */
    static method LookUpTransforms(dev: Device, h: Handle, iface: Interface)
        returns (model: UniformLoc, modelInvTr: UniformLoc, viewProj: UniformLoc)
      requires dev.Valid()
      modifies dev
      ensures dev.Valid() && dev.nextHandle == old(dev.nextHandle)
      ensures dev.activeProgram == old(dev.activeProgram) && dev.enabled == old(dev.enabled)
      ensures dev.log == old(dev.log) + TransformLookups(h)
      ensures model == UniformLocation(iface, "u_Model")
      ensures modelInvTr == UniformLocation(iface, "u_ModelInvTr")
      ensures viewProj == UniformLocation(iface, "u_ViewProj")
    {
      ghost var before := dev.log;
      model := dev.GetUniformLocation(h, "u_Model", iface);
      modelInvTr := dev.GetUniformLocation(h, "u_ModelInvTr", iface);
      viewProj := dev.GetUniformLocation(h, "u_ViewProj", iface);
      assert dev.log == before + [GetUniformLocation(h, "u_Model")]
        + [GetUniformLocation(h, "u_ModelInvTr")] + [GetUniformLocation(h, "u_ViewProj")];
    }

    /** The lookups of the colour, time, terrain, camera and variant uniforms. */
    static method LookUpSurface(dev: Device, h: Handle, iface: Interface)
        returns (color: UniformLoc, time: UniformLoc, heightsInfo: UniformLoc, camPos: UniformLoc, variant: UniformLoc)
      requires dev.Valid()
      modifies dev
      ensures dev.Valid() && dev.nextHandle == old(dev.nextHandle)
      ensures dev.activeProgram == old(dev.activeProgram) && dev.enabled == old(dev.enabled)
      ensures dev.log == old(dev.log) + SurfaceLookups(h)
      ensures color == UniformLocation(iface, "u_Color") && time == UniformLocation(iface, "u_Time")
      ensures heightsInfo == UniformLocation(iface, "u_HeightsInfo")
      ensures camPos == UniformLocation(iface, "u_CamPos") && variant == UniformLocation(iface, "u_Shader")
    {
      ghost var before := dev.log;
      color := dev.GetUniformLocation(h, "u_Color", iface);
      time := dev.GetUniformLocation(h, "u_Time", iface);
      heightsInfo := dev.GetUniformLocation(h, "u_HeightsInfo", iface);
      camPos := dev.GetUniformLocation(h, "u_CamPos", iface);
      variant := dev.GetUniformLocation(h, "u_Shader", iface);
      assert dev.log == before + [GetUniformLocation(h, "u_Color")]
        + [GetUniformLocation(h, "u_Time")] + [GetUniformLocation(h, "u_HeightsInfo")]
        + [GetUniformLocation(h, "u_CamPos")] + [GetUniformLocation(h, "u_Shader")];
    }

    /** The lookups of the noise parameters. */
    static method LookUpNoise(dev: Device, h: Handle, iface: Interface)
        returns (octave: UniformLoc, bias: UniformLoc, freq: UniformLoc, height: UniformLoc, speed: UniformLoc)
      requires dev.Valid()
      modifies dev
      ensures dev.Valid() && dev.nextHandle == old(dev.nextHandle)
      ensures dev.activeProgram == old(dev.activeProgram) && dev.enabled == old(dev.enabled)
      ensures dev.log == old(dev.log) + NoiseLookups(h)
      ensures octave == UniformLocation(iface, "u_Octave") && bias == UniformLocation(iface, "u_Bias")
      ensures freq == UniformLocation(iface, "u_Freq") && height == UniformLocation(iface, "u_Height")
      ensures speed == UniformLocation(iface, "u_Speed")
    {
      ghost var before := dev.log;
      octave := dev.GetUniformLocation(h, "u_Octave", iface);
      bias := dev.GetUniformLocation(h, "u_Bias", iface);
      freq := dev.GetUniformLocation(h, "u_Freq", iface);
      height := dev.GetUniformLocation(h, "u_Height", iface);
      speed := dev.GetUniformLocation(h, "u_Speed", iface);
      assert dev.log == before + [GetUniformLocation(h, "u_Octave")]
        + [GetUniformLocation(h, "u_Bias")] + [GetUniformLocation(h, "u_Freq")]
        + [GetUniformLocation(h, "u_Height")] + [GetUniformLocation(h, "u_Speed")];
    }

    /** Bind this program unless the cache says it is already bound. */
    method Use(dev: Device)
      requires dev.Valid()
      modifies dev
      ensures dev.Valid()
      ensures dev.activeProgram == Some(prog)
      ensures dev.log == old(dev.log) + Activation(old(dev.activeProgram), prog)
      ensures dev.enabled == old(dev.enabled) && dev.nextHandle == old(dev.nextHandle)
    {
      if dev.activeProgram != Some(prog) {
        dev.UseProgram(prog);
        dev.activeProgram := Some(prog);
      }
    }

    method SetModelMatrix(dev: Device, model: seq<real>)
      requires dev.Valid()
      modifies dev
      ensures dev.Valid() && dev.nextHandle == old(dev.nextHandle)
      ensures dev.State() == Step(old(dev.State()), Call(prog, locs, Protocol.SetModelMatrix(model)), AsWritten)
    {
      Use(dev);
      ghost var used := dev.log;
      if locs.unifModel != Absent {
        dev.Send(UniformWrite(locs.unifModel, Matrix4(Given(model))));
      }
      ghost var modelDone := dev.log;
      assert modelDone == used + WriteIf(locs.unifModel, locs.unifModel, Matrix4(Given(model)));
      if locs.unifModelInvTr != Absent {
        dev.Send(UniformWrite(locs.unifModelInvTr, Matrix4(InverseTransposeOf(model))));
      }
      assert dev.log == modelDone + WriteIf(locs.unifModelInvTr, locs.unifModelInvTr, Matrix4(InverseTransposeOf(model)));
      Assoc(used, WriteIf(locs.unifModel, locs.unifModel, Matrix4(Given(model))),
        WriteIf(locs.unifModelInvTr, locs.unifModelInvTr, Matrix4(InverseTransposeOf(model))));
      Assoc(old(dev.log), Activation(old(dev.activeProgram), prog), OpCommands(locs, Protocol.SetModelMatrix(model)));
      Settle(old(dev.State()), dev.State(), prog, Activation(old(dev.activeProgram), prog) + OpCommands(locs, Protocol.SetModelMatrix(model)));
    }

    method SetViewProjMatrix(dev: Device, vp: seq<real>)
      requires dev.Valid()
      modifies dev
      ensures dev.Valid() && dev.nextHandle == old(dev.nextHandle)
      ensures dev.State() == Step(old(dev.State()), Call(prog, locs, Protocol.SetViewProjMatrix(vp)), AsWritten)
    {
      Use(dev);
      if locs.unifViewProj != Absent {
        dev.Send(UniformWrite(locs.unifViewProj, Matrix4(Given(vp))));
      }
      Settle(old(dev.State()), dev.State(), prog, Activation(old(dev.activeProgram), prog) + OpCommands(locs, Protocol.SetViewProjMatrix(vp)));
    }

    method SetGeometryColor(dev: Device, color: seq<real>)
      requires dev.Valid()
      modifies dev
      ensures dev.Valid() && dev.nextHandle == old(dev.nextHandle)
      ensures dev.State() == Step(old(dev.State()), Call(prog, locs, Protocol.SetGeometryColor(color)), AsWritten)
    {
      Use(dev);
      if locs.unifColor != Absent {
        dev.Send(UniformWrite(locs.unifColor, Vector4(color)));
      }
      Settle(old(dev.State()), dev.State(), prog, Activation(old(dev.activeProgram), prog) + OpCommands(locs, Protocol.SetGeometryColor(color)));
    }

    method SetTime(dev: Device, t: real)
      requires dev.Valid()
      modifies dev
      ensures dev.Valid() && dev.nextHandle == old(dev.nextHandle)
      ensures dev.State() == Step(old(dev.State()), Call(prog, locs, Protocol.SetTime(t)), AsWritten)
    {
      Use(dev);
      if locs.unifTime != Absent {
        dev.Send(UniformWrite(locs.unifTime, Float1(t)));
      }
      Settle(old(dev.State()), dev.State(), prog, Activation(old(dev.activeProgram), prog) + OpCommands(locs, Protocol.SetTime(t)));
    }

    method SetHeightsInfo(dev: Device, heightsInfo: seq<real>)
      requires dev.Valid()
      modifies dev
      ensures dev.Valid() && dev.nextHandle == old(dev.nextHandle)
      ensures dev.State() == Step(old(dev.State()), Call(prog, locs, Protocol.SetHeightsInfo(heightsInfo)), AsWritten)
    {
      Use(dev);
      if locs.unifHeightsInfo != Absent {
        dev.Send(UniformWrite(locs.unifHeightsInfo, Vector4(heightsInfo)));
      }
      Settle(old(dev.State()), dev.State(), prog, Activation(old(dev.activeProgram), prog) + OpCommands(locs, Protocol.SetHeightsInfo(heightsInfo)));
    }

    method SetCamInfo(dev: Device, camPos: seq<real>)
      requires dev.Valid()
      modifies dev
      ensures dev.Valid() && dev.nextHandle == old(dev.nextHandle)
      ensures dev.State() == Step(old(dev.State()), Call(prog, locs, Protocol.SetCamInfo(camPos)), AsWritten)
    {
      Use(dev);
      if locs.unifCamPos != Absent {
        dev.Send(UniformWrite(locs.unifCamPos, Vector3(camPos)));
      }
      Settle(old(dev.State()), dev.State(), prog, Activation(old(dev.activeProgram), prog) + OpCommands(locs, Protocol.SetCamInfo(camPos)));
    }

    method SetShader(dev: Device, variant: int)
      requires dev.Valid()
      modifies dev
      ensures dev.Valid() && dev.nextHandle == old(dev.nextHandle)
      ensures dev.State() == Step(old(dev.State()), Call(prog, locs, Protocol.SetShader(variant)), AsWritten)
    {
      Use(dev);
      if locs.unifShader != Absent {
        dev.Send(UniformWrite(locs.unifShader, Int1(variant)));
      }
      Settle(old(dev.State()), dev.State(), prog, Activation(old(dev.activeProgram), prog) + OpCommands(locs, Protocol.SetShader(variant)));
    }

    /** Guarded by the shader-variant channel, as the code is written. */
    method SetOctaves(dev: Device, octaves: int)
      requires dev.Valid()
      modifies dev
      ensures dev.Valid() && dev.nextHandle == old(dev.nextHandle)
      ensures dev.State() == Step(old(dev.State()), Call(prog, locs, Protocol.SetOctaves(octaves)), AsWritten)
    {
      Use(dev);
      if locs.unifShader != Absent {
        dev.Send(UniformWrite(locs.unifOctave, Int1(octaves)));
      }
      Settle(old(dev.State()), dev.State(), prog, Activation(old(dev.activeProgram), prog) + OpCommands(locs, Protocol.SetOctaves(octaves)));
    }

    /** Guarded by the shader-variant channel, as the code is written. */
    method SetBias(dev: Device, bias: real)
      requires dev.Valid()
      modifies dev
      ensures dev.Valid() && dev.nextHandle == old(dev.nextHandle)
      ensures dev.State() == Step(old(dev.State()), Call(prog, locs, Protocol.SetBias(bias)), AsWritten)
    {
      Use(dev);
      if locs.unifShader != Absent {
        dev.Send(UniformWrite(locs.unifBias, Float1(bias)));
      }
      Settle(old(dev.State()), dev.State(), prog, Activation(old(dev.activeProgram), prog) + OpCommands(locs, Protocol.SetBias(bias)));
    }

    /** Guarded by the shader-variant channel, as the code is written. */
    method SetFrequency(dev: Device, frequency: real)
      requires dev.Valid()
      modifies dev
      ensures dev.Valid() && dev.nextHandle == old(dev.nextHandle)
      ensures dev.State() == Step(old(dev.State()), Call(prog, locs, Protocol.SetFrequency(frequency)), AsWritten)
    {
      Use(dev);
      if locs.unifShader != Absent {
        dev.Send(UniformWrite(locs.unifFreq, Float1(frequency)));
      }
      Settle(old(dev.State()), dev.State(), prog, Activation(old(dev.activeProgram), prog) + OpCommands(locs, Protocol.SetFrequency(frequency)));
    }

    /** Guarded by the shader-variant channel, as the code is written. */
    method SetTerrainHeight(dev: Device, height: real)
      requires dev.Valid()
      modifies dev
      ensures dev.Valid() && dev.nextHandle == old(dev.nextHandle)
      ensures dev.State() == Step(old(dev.State()), Call(prog, locs, Protocol.SetTerrainHeight(height)), AsWritten)
    {
      Use(dev);
      if locs.unifShader != Absent {
        dev.Send(UniformWrite(locs.unifHeight, Float1(height)));
      }
      Settle(old(dev.State()), dev.State(), prog, Activation(old(dev.activeProgram), prog) + OpCommands(locs, Protocol.SetTerrainHeight(height)));
    }

    /** Guarded by the shader-variant channel, as the code is written. */
    method SetSpeed(dev: Device, speed: real)
      requires dev.Valid()
      modifies dev
      ensures dev.Valid() && dev.nextHandle == old(dev.nextHandle)
      ensures dev.State() == Step(old(dev.State()), Call(prog, locs, Protocol.SetSpeed(speed)), AsWritten)
    {
      Use(dev);
      if locs.unifShader != Absent {
        dev.Send(UniformWrite(locs.unifSpeed, Float1(speed)));
      }
      Settle(old(dev.State()), dev.State(), prog, Activation(old(dev.activeProgram), prog) + OpCommands(locs, Protocol.SetSpeed(speed)));
    }

    /** Enable an attribute slot and describe it as four tightly packed
        floats from offset 0. */
    static method PointAttribute(dev: Device, slot: int)
      requires dev.Valid()
      modifies dev
      ensures dev.Valid() && dev.nextHandle == old(dev.nextHandle)
      ensures dev.activeProgram == old(dev.activeProgram)
      ensures dev.log == old(dev.log) + [EnableAttrib(slot), AttribPointer(slot, 4, FLOAT, false, 0, 0)]
    {
      dev.Send(EnableAttrib(slot));
      dev.Send(AttribPointer(slot, 4, FLOAT, false, 0, 0));
    }

    /** ShaderProgram.ts lines 172-175: the position stream, if both the
        shader and the provider have one. */
    method SetUpPosition(dev: Device, d: Drawable)
      requires dev.Valid()
      modifies dev
      ensures dev.Valid() && dev.nextHandle == old(dev.nextHandle)
      ensures dev.activeProgram == old(dev.activeProgram)
      ensures dev.log == old(dev.log) + StreamSetup(locs.attrPos, PositionStream, d.geometry.hasPos)
    {
      if locs.attrPos != -1 {
        ghost var before := dev.log;
        var hasPos := d.BindPos(dev);
        if hasPos {
          PointAttribute(dev, locs.attrPos);
          assert dev.log == before + ([BindStream(PositionStream)] + [EnableAttrib(locs.attrPos), AttribPointer(locs.attrPos, 4, FLOAT, false, 0, 0)]);
        } else {
          assert dev.log == before + ([BindStream(PositionStream)] + []);
        }
      }
    }

    /** ShaderProgram.ts lines 177-180: the normal stream, if both the
        shader and the provider have one. */
    method SetUpNormal(dev: Device, d: Drawable)
      requires dev.Valid()
      modifies dev
      ensures dev.Valid() && dev.nextHandle == old(dev.nextHandle)
      ensures dev.activeProgram == old(dev.activeProgram)
      ensures dev.log == old(dev.log) + StreamSetup(locs.attrNor, NormalStream, d.geometry.hasNor)
    {
      if locs.attrNor != -1 {
        ghost var before := dev.log;
        var hasNor := d.BindNor(dev);
        if hasNor {
          PointAttribute(dev, locs.attrNor);
          assert dev.log == before + ([BindStream(NormalStream)] + [EnableAttrib(locs.attrNor), AttribPointer(locs.attrNor, 4, FLOAT, false, 0, 0)]);
        } else {
          assert dev.log == before + ([BindStream(NormalStream)] + []);
        }
      }
    }

    /** ShaderProgram.ts lines 185-186: disable the position and normal
        slots whose locations are present, whether or not they were enabled. */
    method TearDown(dev: Device)
      requires dev.Valid()
      modifies dev
      ensures dev.Valid() && dev.nextHandle == old(dev.nextHandle)
      ensures dev.activeProgram == old(dev.activeProgram)
      ensures dev.log == old(dev.log) + StreamTeardown(locs.attrPos) + StreamTeardown(locs.attrNor)
    {
      if locs.attrPos != -1 {
        dev.Send(DisableAttrib(locs.attrPos));
      }
      ghost var posDone := dev.log;
      if locs.attrNor != -1 {
        dev.Send(DisableAttrib(locs.attrNor));
      }
      assert dev.log == posDone + StreamTeardown(locs.attrNor);
    }

    /** ShaderProgram.ts lines 172-186: everything `draw` sends after its
        leading `use()`. */
    method DrawBody(dev: Device, d: Drawable)
      requires dev.Valid()
      modifies dev
      ensures dev.Valid() && dev.nextHandle == old(dev.nextHandle)
      ensures dev.activeProgram == old(dev.activeProgram)
      ensures dev.log == old(dev.log) + DrawCommands(locs, d.geometry)
    {
      ghost var g := d.geometry;
      SetUpPosition(dev, d);
      SetUpNormal(dev, d);
      ghost var streamsUp := dev.log;
      d.BindIdx(dev);
      dev.Send(DrawElements(d.geometry.mode, d.geometry.count, UNSIGNED_INT, 0));
      ghost var mid := [BindStream(IndexStream), DrawElements(g.mode, g.count, UNSIGNED_INT, 0)];
      assert dev.log == streamsUp + mid;
      TearDown(dev);
      Regroup(old(dev.log), StreamSetup(locs.attrPos, PositionStream, g.hasPos),
        StreamSetup(locs.attrNor, NormalStream, g.hasNor), mid,
        StreamTeardown(locs.attrPos), StreamTeardown(locs.attrNor));
    }

    /** Bind the provider's position and normal streams where both the shader
        and the provider have them, draw its indices, then disable the
        position and normal slots whose locations are present. */
    method Draw(dev: Device, d: Drawable)
      requires dev.Valid()
      modifies dev
      ensures dev.Valid() && dev.nextHandle == old(dev.nextHandle)
      ensures dev.State() == Step(old(dev.State()), Call(prog, locs, Protocol.Draw(d.geometry)), AsWritten)
    {
      Use(dev);
      DrawBody(dev, d);
      DrawSettles(old(dev.State()), dev.State(), prog, locs, d.geometry);
    }
  }
}
