# ShaderProgram binding layer — a verified Dafny model

This project models `src/rendering/gl/ShaderProgram.ts`, the layer of the
noisy-planet renderer that compiles shader stages, links them into a program,
resolves the program's attribute and uniform locations, and then drives the
graphics device. The device is driven through `use()`, thirteen uniform
setters, and `draw()`.

How the model is built:

- Each WebGL call becomes one `Command` appended to a device log, except the
  four status and info-log queries (see "Left out"). The device itself (class
  `Gl.Device`) interprets three parts of its state:
  - the set of enabled vertex-attribute arrays;
  - the process-wide bind cache `activeProgram` (line 5 of the source), kept
    as a field of the device because there is one cache per context;
  - the counter it draws new shader and program handles from.
- `Device.Valid()` ties the state to the log:
  - the cache names the program the last `UseProgram` bound;
  - the enabled set is what the log's enables and disables produce;
  - the counter is above every handle the log created, so each new handle
    is one no earlier command created.
- The `ShaderProgram` class (module `ShaderProgram`) has the same constructor
  steps, `use`, setters and `draw` as the source. `use`, each setter and
  `draw` are proved to leave the device in exactly the state `Protocol.Step`
  predicts; the link is proved to send exactly the creation, attachments,
  link request and lookups, in order.
- `Protocol` describes each operation as a value: what it sends, and what a
  whole session of calls does. Its lemmas state what the source promises:
  - redundant binds are skipped, and the cache never lies;
  - absent locations are never written by a correctly guarded setter;
  - `draw` issues one indexed draw; afterwards no slot it enabled is still
    enabled, and every present position or normal slot is disabled.
- `Drawable` is a stand-in for the geometry provider. It records each bind
  request, so the short-circuit `attrPos != -1 && d.bindPos()` can be
  checked. Its answers are fixed when it is built.

## Model

| member | source | states |
|---|---|---|
| Gl.AttribLocation | src/rendering/gl/ShaderProgram.ts:53-55 | an attribute location is -1 exactly when the linked program does not use that name |
| Gl.UniformLocation | src/rendering/gl/ShaderProgram.ts:56-69 | a uniform location is the absent sentinel exactly when the linked program does not use that name |
| Gl.Device.UseProgram | src/rendering/gl/ShaderProgram.ts:74 | after gl.useProgram(p) the device has p bound, and the enabled set is unchanged |
| Gl.Device.constructor | src/rendering/gl/ShaderProgram.ts:5 | a new context has no program bound, no attribute array enabled and an empty log |
| Gl.Device.Send | src/rendering/gl/ShaderProgram.ts:12-13 | a command that binds and creates nothing is appended to the log; the bound program is kept and the enabled set changes only by that command |
| Gl.Device.CreateShader | src/rendering/gl/ShaderProgram.ts:11 | the new handle is one no earlier command created; one CreateShader command |
| Gl.Device.CreateProgram | src/rendering/gl/ShaderProgram.ts:43 | the new handle is one no earlier command created; one CreateProgram command |
| Gl.BoundExcludes | src/rendering/gl/ShaderProgram.ts:11 | no handle at or above the created-handle bound of a log was created by it |
| Gl.Device.GetAttribLocation | src/rendering/gl/ShaderProgram.ts:53-55 | the answer is the program's location for the name (or -1); the lookup is logged and changes nothing else |
| Gl.Device.GetUniformLocation | src/rendering/gl/ShaderProgram.ts:56-69 | the answer is the program's location for the name (or absent); the lookup is logged and changes nothing else |
| Gl.ReplayAppend | src/rendering/gl/ShaderProgram.ts:172-186 | replaying a concatenation of commands on the enabled set is replaying the parts in turn |
| Gl.LastUsedKept | src/rendering/gl/ShaderProgram.ts:72-77 | commands that bind no program leave the bound program as it was |
| ShaderProgram.NewShader | src/rendering/gl/ShaderProgram.ts:10-18 | create a new shader object, source, compile, in that order; a failed compile throws the info log and yields no shader |
| ShaderProgram.AttachmentsInOrder | src/rendering/gl/ShaderProgram.ts:45-47 | every shader handed to the link is attached once, in the given order |
| ShaderProgram.ShaderProgram.Link | src/rendering/gl/ShaderProgram.ts:42-69 | on a failed link: create a new program object, attach all, link, then throw the log with no lookup; on success: the same, then the 16 lookups in declaration order, and the kept locations are the device's answers for the linked program's interface |
| ShaderProgram.ShaderProgram.AttachAll | src/rendering/gl/ShaderProgram.ts:45-47 | the shaders are attached to the program in order |
| ShaderProgram.ShaderProgram.LookUpAll | src/rendering/gl/ShaderProgram.ts:53-69 | exactly the 16 lookups by fixed name, and the resulting bindings are `Resolve` of the program's interface |
| ShaderProgram.ShaderProgram.LookUpAttributes | src/rendering/gl/ShaderProgram.ts:53-55 | the three attribute lookups in order; each kept slot is the device's answer for its name |
| ShaderProgram.ShaderProgram.LookUpTransforms | src/rendering/gl/ShaderProgram.ts:56-58 | the model, inverse-transpose and view-projection lookups in order; each kept location is the device's answer |
| ShaderProgram.ShaderProgram.LookUpSurface | src/rendering/gl/ShaderProgram.ts:59-63 | the colour, time, heights, camera and variant lookups in order; each kept location is the device's answer |
| ShaderProgram.ShaderProgram.LookUpNoise | src/rendering/gl/ShaderProgram.ts:65-69 | the octave, bias, frequency, height and speed lookups in order; each kept location is the device's answer |
| ShaderProgram.ShaderProgram.Use | src/rendering/gl/ShaderProgram.ts:72-77 | no command when the cache already holds this program, otherwise exactly one UseProgram; afterwards the cache holds this program |
| ShaderProgram.ShaderProgram.SetModelMatrix | src/rendering/gl/ShaderProgram.ts:79-91 | the device ends in `Step` of setModelMatrix: use, then the model write iff its location is present, then the inverse-transpose write iff its location is present |
| ShaderProgram.ShaderProgram.SetViewProjMatrix | src/rendering/gl/ShaderProgram.ts:93-98 | the device ends in `Step` of the call: use, then one matrix write iff the location is present |
| ShaderProgram.ShaderProgram.SetGeometryColor | src/rendering/gl/ShaderProgram.ts:100-105 | as above, with one vec4 write |
| ShaderProgram.ShaderProgram.SetTime | src/rendering/gl/ShaderProgram.ts:107-112 | as above, with one float write |
| ShaderProgram.ShaderProgram.SetHeightsInfo | src/rendering/gl/ShaderProgram.ts:114-118 | as above, with one vec4 write |
| ShaderProgram.ShaderProgram.SetCamInfo | src/rendering/gl/ShaderProgram.ts:120-125 | as above, with one vec3 write |
| ShaderProgram.ShaderProgram.SetShader | src/rendering/gl/ShaderProgram.ts:127-132 | as above, with one int write |
| ShaderProgram.ShaderProgram.SetOctaves | src/rendering/gl/ShaderProgram.ts:134-139 | as written: an int write to the octave location iff the shader-variant location is present |
| ShaderProgram.ShaderProgram.SetBias | src/rendering/gl/ShaderProgram.ts:141-146 | as written: a float write to the bias location iff the shader-variant location is present |
| ShaderProgram.ShaderProgram.SetFrequency | src/rendering/gl/ShaderProgram.ts:148-153 | as written: a float write to the frequency location iff the shader-variant location is present |
| ShaderProgram.ShaderProgram.SetTerrainHeight | src/rendering/gl/ShaderProgram.ts:155-160 | as written: a float write to the height location iff the shader-variant location is present |
| ShaderProgram.ShaderProgram.SetSpeed | src/rendering/gl/ShaderProgram.ts:162-167 | as written: a float write to the speed location iff the shader-variant location is present |
| ShaderProgram.ShaderProgram.PointAttribute | src/rendering/gl/ShaderProgram.ts:173-174 | enable the slot, then describe it as 4 floats, not normalized, stride 0, offset 0 |
| ShaderProgram.ShaderProgram.SetUpPosition | src/rendering/gl/ShaderProgram.ts:172-175 | the provider is asked for positions only when the location is present, and the slot is enabled only when it also has them |
| ShaderProgram.ShaderProgram.SetUpNormal | src/rendering/gl/ShaderProgram.ts:177-180 | the same for normals |
| ShaderProgram.ShaderProgram.TearDown | src/rendering/gl/ShaderProgram.ts:185-186 | disable the position slot, then the normal slot, each iff its location is present |
| ShaderProgram.ShaderProgram.DrawBody | src/rendering/gl/ShaderProgram.ts:172-186 | the set-ups, the index bind, the draw and the teardowns, in that order |
| ShaderProgram.ShaderProgram.Draw | src/rendering/gl/ShaderProgram.ts:169-187 | the device ends in `Step` of draw: use, followed by exactly the commands `DrawCommands` lists |
| Drawable.Drawable.BindPos | src/rendering/gl/ShaderProgram.ts:172 | the position bind is logged and the provider reports whether it has positions |
| Drawable.Drawable.BindNor | src/rendering/gl/ShaderProgram.ts:177 | the normal bind is logged and the provider reports whether it has normals |
| Drawable.Drawable.BindIdx | src/rendering/gl/ShaderProgram.ts:182 | the index bind is logged |
| Protocol.Activation | src/rendering/gl/ShaderProgram.ts:72-77 | use() sends nothing exactly when the cache already holds the program, otherwise a single UseProgram of it |
| Protocol.OpCommands | src/rendering/gl/ShaderProgram.ts:79-187 | apart from draw, an operation sends at most two commands after use(), all of them uniform writes |
| Protocol.IntendedCommands | src/rendering/gl/ShaderProgram.ts:134-167 | the own-channel reading differs from the code only in the five misguarded setters, and each of those writes at most once, to a present location |
| Protocol.DrawCommands | src/rendering/gl/ShaderProgram.ts:172-186 | draw's commands include the indexed draw with the provider's mode and count, and never write a uniform or bind a program |
| Protocol.Step | src/rendering/gl/ShaderProgram.ts:72-187 | after any call the cache holds the call's program, and the log only grows |
| Protocol.Run | src/rendering/gl/ShaderProgram.ts:72-187 | over a session the log only grows, and afterwards the cache holds the last call's program |
| Protocol.OperationsDoNotActivate | src/rendering/gl/ShaderProgram.ts:79-187 | apart from its leading use(), no setter and not draw binds a program |
| Protocol.UseIdempotent | src/rendering/gl/ShaderProgram.ts:72-77 | a second use() right after the first sends nothing and changes nothing; the pair adds at most one activation |
| Protocol.StepBindsOwnProgram | src/rendering/gl/ShaderProgram.ts:72-77 | after any call the cache matches the bound program, and every command of the call is sent while its own program is bound |
| Protocol.BoundThroughout | src/rendering/gl/ShaderProgram.ts:72-77 | after use() of a program, commands that bind nothing all run with that program bound |
| Protocol.RunKeepsCacheSound | src/rendering/gl/ShaderProgram.ts:5 | over any session on any programs, the cache never disagrees with the program the device has bound |
| Protocol.RunActivations | src/rendering/gl/ShaderProgram.ts:72-77 | a session sends exactly one activation per change of program, and none for calls on the cached program |
| Protocol.SameProgramNeverRebinds | src/rendering/gl/ShaderProgram.ts:72-77 | calls that all target the cached program send no activation at all |
| Protocol.SetterContract | src/rendering/gl/ShaderProgram.ts:93-167 | each single-channel setter sends nothing or one write of its argument, using its channel's declared type, to its own location; as written the write happens iff the tested guard is present; with its own guard, iff its own location is present |
| Protocol.MisguardedSettersFollowVariant | src/rendering/gl/ShaderProgram.ts:134-167 | the five setters write exactly when the shader-variant location is present, whatever their own location is |
| Protocol.ModelMatrixContract | src/rendering/gl/ShaderProgram.ts:79-91 | model write iff the model location is present, inverse-transpose write iff its location is present, in that order, and no other command: one write per present location; nothing when both are absent |
| Protocol.AsWrittenWritesAbsent | src/rendering/gl/ShaderProgram.ts:134-139 | with the variant location present and the octave location absent, setOctaves writes to the absent location |
| Protocol.IntendedSkipsAbsent | src/rendering/gl/ShaderProgram.ts:79-187 | with each setter guarded by its own channel, no operation writes to an absent location |
| Protocol.RunOwnChannelSkipsAbsent | src/rendering/gl/ShaderProgram.ts:79-187 | a session with own-channel guards never adds a write to an absent location to the log |
| Protocol.DrawIssuesOneIndexedDraw | src/rendering/gl/ShaderProgram.ts:182-183 | draw makes the index stream current once and issues exactly one indexed draw, with the provider's mode and count, 32-bit indices and offset 0, right after the index bind; it writes no uniform and binds no program |
| Protocol.DrawEnablesOnlyWhatBothHave | src/rendering/gl/ShaderProgram.ts:172-180 | the provider is asked for a stream iff its location is present; a slot is enabled iff its location is present and the provider has the stream; the color attribute is never enabled |
| Protocol.DrawDisablesPresentSlots | src/rendering/gl/ShaderProgram.ts:185-186 | draw disables exactly the present position and normal slots |
| Protocol.DrawReplay | src/rendering/gl/ShaderProgram.ts:172-186 | replaying draw's commands removes the present slots from the enabled set |
| Protocol.DrawRestoresAttributes | src/rendering/gl/ShaderProgram.ts:172-186 | after draw, the present slots are disabled even if they were never enabled, and no slot draw enabled stays enabled |
| Protocol.StepEnabled | src/rendering/gl/ShaderProgram.ts:79-187 | only draw changes the enabled set, and it only removes the present slots |
| Protocol.RunNeverEnablesNewSlots | src/rendering/gl/ShaderProgram.ts:169-187 | no session leaves an attribute array enabled that was not enabled before it |
| Protocol.Lookups | src/rendering/gl/ShaderProgram.ts:53-69 | a successful link makes 16 lookups, all of them on the new program |
| Protocol.LookupsDistinct | src/rendering/gl/ShaderProgram.ts:53-69 | no lookup is repeated |
| Protocol.LookupsOncePerChannel | src/rendering/gl/ShaderProgram.ts:53-69 | a successful link makes 16 lookups, one for each channel by its fixed name |
| Protocol.Resolve | src/rendering/gl/ShaderProgram.ts:53-69 | each kept location is the device's answer for that channel's fixed name |
| Protocol.ResolveByName | src/rendering/gl/ShaderProgram.ts:56-69 | a kept uniform location is absent iff the program does not use that channel's name |
| Protocol.OnlyTimeAndViewProj | src/rendering/gl/ShaderProgram.ts:107-112 | for a shader that declares only u_Time and u_ViewProj, every other uniform is absent, setGeometryColor sends nothing, and setTime(1.5) sends one float write of 1.5 |

## Left out

- WebGL itself is not modelled. Each gl call, except the four queries below, is a log entry. Compile status, link status, the info logs and the program's active inputs are parameters of `NewShader` and `Link`.
- The getShaderParameter and getShaderInfoLog calls (lines 15-16) and the getProgramParameter and getProgramInfoLog calls (lines 49-50) are not logged. Their answers are the `compiles`/`infoLog` and `links`/`infoLog` parameters, and they change no device state.
- The matrix transpose and inversion (gl-matrix floating point) are not computed. The inverse-transpose write carries `InverseTransposeOf(model)` symbolically.
- The lengths of the vec3/vec4/mat4 arguments are not checked. The payloads are plain sequences of reals.
- JavaScript numbers are modelled as `real` for float uniforms and as unbounded `int` for the uniform1i arguments of setShader and setOctaves.
- ShaderProgram.ShaderProgram.SetShader: the argument is an unbounded `int`; the WebIDL `long` conversion of uniform1i, which truncates a non-integer number and wraps modulo 2^32 into the signed 32-bit range, is not modelled.
- ShaderProgram.ShaderProgram.SetOctaves: the same `long` conversion (truncation and wrap-around modulo 2^32) is not modelled.
- Real WebGL answers a missing uniform with `null`, not -1, so the source's `!== -1` guards are always true at run time. The model gives the absent sentinel the meaning the guards intend: the setter skips the write.
- `activeProgram` is a variable of the source module. Here it is a field of the device, because there is one cache per rendering context.
- The Drawable class's buffers and its other file are not part of this model. The provider is reduced to the answers `draw` consumes: whether it has positions and normals, its draw mode and its element count. The `drawMode()` and `elemCount()` queries (line 183) send no gl call; `draw` reads those answers from the provider's fixed geometry.
- The `gl` context from globals, its lifetime, and any concurrency are not modelled.
- ShaderProgram.ShaderProgram.Link: is a static method returning `Result` rather than a throwing constructor. A thrown info log is `Err(infoLog)`.
- ShaderProgram.NewShader: is a method returning `Result` rather than a throwing constructor of a `Shader` class. A compiled shader is an immutable value.

## Findings

Five setters guard on the shader-variant channel instead of their own. The class methods follow the code as written. Every session lemma (`RunKeepsCacheSound`, `RunActivations`, `RunNeverEnablesNewSlots`) is proved for both readings, `Guarding.AsWritten` and `Guarding.OwnChannel`. The absent-write guarantee holds only for the corrected reading (`RunOwnChannelSkipsAbsent`).

| source | as written | input that shows it | evidently intended | confidence | as-written member | corrected member |
|---|---|---|---|---|---|---|
| src/rendering/gl/ShaderProgram.ts:134-167 | setOctaves, setBias, setFrequency, setTerrainHeight and setSpeed test `unifShader !== -1` and then write to their own location | a program that declares `u_Shader` but not `u_Octave`: setOctaves(n) writes `n` to the absent octave location. Conversely, a program that declares `u_Octave` but not `u_Shader`: setOctaves(n) drops the write (`MisguardedSettersFollowVariant`) | each setter tests its own location, so an absent channel is never written | not executed | Protocol.AsWrittenWritesAbsent | Protocol.RunOwnChannelSkipsAbsent |
