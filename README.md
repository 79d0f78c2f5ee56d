# ThermalDiffusion: a Dafny model of the solver, the compositor and the heat source

ThermalDiffusion is a Unity project that simulates heat spreading across the
screen on the GPU. Each frame has three parts, and this model covers all three:

- **MouseSourceProvider**: while the left mouse button is held, it paints a heat
  impulse into a source texture. Either way, it tells the solver which source
  texture to use, or null when the button is up.
- **Solver**: runs `iteration` sub-steps per frame over a pair of heat textures
  (`heatTex`, `prevHeatTex`) at the screen size shifted right by `lod`.
  - Each sub-step dispatches three compute kernels: `AddSourceHeat` (only when
    there is a source), `DiffuseHeat` and `SetBoundaryHeat`.
  - Then it copies the new field into the previous one.
  - At the end of the frame it publishes `_HeatTex` and `_AddingHeatIntensity`
    to every shader.
  - When the screen size changes, it re-acquires its textures.
- **RenderEffect**: post-processes the camera image.
  - It copies the image into `rts[0]` and runs each effect material from one
    texture of a ping-pong pair into the other, swapping the pair after each pass.
  - It copies the result into `Output` and draws either `Output` or the plain
    image, depending on `show`.
  - When the camera size changes, it re-acquires the pair and `Output` and
    announces the new `Output`.
- **RenderUtility**: helpers that create, clear and release render textures.
  `RenderEffect` calls them; `Solver` has private copies of the same code
  (`Solver.cs:193-240`). `MouseSourceProvider` does not use them: it
  allocates its source texture with `new RenderTexture`, frees it with
  `Destroy`, and never clears it.

The model is in six modules:

- `CSharp` (`csharp.dfy`): the C# integer semantics the code relies on, namely
  `>>` on `int` with its shift count taken mod 32, and 32-bit wrap-around of
  `int` multiplication.
- `Gpu` (`gpu.dfy`): the slice of the Unity engine the scripts drive.
  - `EngineState` holds a store of textures, the set of live textures (`Present`
    models Unity's `== null` test, which is true for a destroyed texture), the
    active render target, the back buffer and the screen size.
  - `trace` records every command and notification in order.
  - Pixels are symbolic. `Undefined` is what a newly allocated texture holds,
    `Filled(c)` a clear, and `Blank` what a blit without a source texture
    feeds its material. `Scaled` is a resampling blit, `Shaded(m, p)` a
    material applied to `p`, and `Computed` a kernel's output.
  - The class `Engine` wraps one `EngineState` and has one method per engine
    call.
- `RenderUtility` (`render_utility.dfy`): `CreateRenderTexture`,
  `ReleaseRenderTexture` and `ClearRenderTexture`.
  - Each is a specification function on `EngineState` plus a method on `Engine`
    proved equal to it.
  - The solver's own copies of these three helpers are the same code apart from
    fixed wrap and filter arguments, so they share this model.
- `Diffusion` (`solver.dfy`): the thread-group check, the dispatch grid, the
  heat field as a sequence of symbolic kernel applications, and the class
  `Solver`.
- `Compositor` (`compositor.dfy`): the effect chain, the reallocation in
  `CheckRTs`, one whole rendered frame, and the class `RenderEffect` over an
  `array<TexRef>` of length 2 for `rts`.
- `MouseSource` (`mouse_source.dfy`): the size test and re-allocation of the
  source texture, the source update with its notification, and the class
  `MouseSourceProvider`.

The imperative classes are proved against the specification functions. Most
methods' `ensures` equate the new engine state with a function of the old one.
`Solver.Update` and `Solver.Advance` instead state the new heat field, the
exact commands issued, and a frame: no texture outside the solver's own
changes, the source texture keeps its contents, and the back buffer and the
screen size stay as they were. The lemmas beside the functions prove what
the code promises:

- which textures are kept and which are fresh;
- sizes and contents;
- that nothing outside a method's own textures changes;
- the exact command sequence and the notifications a frame emits.

## Model

| member | source | states |
|---|---|---|
| CSharp.Shr | Assets/Reference/Scripts/Solver.cs:145-146 | `x >> n` on a non-negative `int` gives a value between 0 and `x` |
| CSharp.ShrFixedIff | Assets/Reference/Scripts/MouseSourceProvider.cs:36-40 | a non-negative size is unchanged by `>> lod` exactly when it is 0 or `lod` is 0 mod 32 |
| CSharp.Wrap32 | Assets/Reference/Scripts/Solver.cs:133 | the result is in `int` range, congruent to the input mod 2^32, and the input itself when it already fits |
| CSharp.MulInt | Assets/Reference/Scripts/Solver.cs:133 | `int` multiplication stays in range and is exact when the true product fits |
| Diffusion.InitialCheck | Assets/Reference/Scripts/Solver.cs:128-137 | the five assertions in source order, each adding its failure to the log; the product is computed with `int` wrap-around. What it accepts is stated by `InitialCheckPasses` |
| Diffusion.InitialCheckPasses | Assets/Reference/Scripts/Solver.cs:128-137 | for positive axes, the check logs nothing iff the shader level is at least 50, the true product x*y*z is at most MAX_PROCESS = 65535*1024, and x, y and z are at most 1024, 1024 and 64 |
| Diffusion.ProcessLimitNotThreadLimit | Assets/Reference/Scripts/Solver.cs:29-37 | the product is bounded by MAX_PROCESS, not MAX_THREAD: a 32x32x2 group (2048 threads) passes, and a group at every axis maximum fails on the product alone |
| Diffusion.CeilDiv | Assets/Reference/Scripts/Solver.cs:170 | `CeilToInt(a / (float)b)` is the least q with q*b >= a |
| Diffusion.CoverIsUnique | Assets/Reference/Scripts/Solver.cs:170 | at most one group count covers a length with nothing to spare, so `CeilDiv`'s contract determines its value |
| Diffusion.DispatchGrid | Assets/Reference/Scripts/Solver.cs:177 | the grid covers the heat texture with groups of the kernel's thread size and no more, and has depth 1 |
| Diffusion.Step | Assets/Reference/Scripts/Solver.cs:159-187 | after a sub-step the previous field equals the current one (the final blit copies heat into prevHeat) |
| Diffusion.Settled | Assets/Reference/Scripts/Solver.cs:173-185 | a sub-step without a source also leaves both fields equal |
| Diffusion.Iterate | Assets/Reference/Scripts/Solver.cs:99-102 | `n` sub-steps on the field, one `Step` per loop iteration; its properties are `NoSourceNoInjection` and `SourceInjects` |
| Diffusion.NoSourceNoInjection | Assets/Reference/Scripts/Solver.cs:164-171 | with a null `SourceTex`, no number of sub-steps ever applies `AddSourceHeat` |
| Diffusion.SourceInjects | Assets/Reference/Scripts/Solver.cs:164-171 | with a source, one or more sub-steps apply `AddSourceHeat` |
| Diffusion.FrameDispatches | Assets/Reference/Scripts/Solver.cs:99-102 | n sub-steps issue exactly 3n dispatches with a source and 2n without |
| Diffusion.FrameUnpublished | Assets/Reference/Scripts/Solver.cs:99-102 | the sub-steps publish nothing; only the end of `Update` does |
| Diffusion.AcquirePair | Assets/Reference/Scripts/Solver.cs:145-146 | both heat textures end up live, distinct and of the requested size; each is kept iff it was already that size and otherwise fresh; nothing else is touched; the commands are listed |
| Diffusion.Reinitialized | Assets/Reference/Scripts/Solver.cs:139-155 | as `AcquirePair`, followed by publishing `_HeatTex` |
| Diffusion.ReinitializedReady | Assets/Reference/Scripts/Solver.cs:139-155 | after re-initialisation the solver is ready again, and the source texture it held keeps its contents |
| Diffusion.Solver.constructor | Assets/Reference/Scripts/Solver.cs:40-73 | no textures, size 0 x 0, the configured `lod`, `iteration` and intensity |
| Diffusion.Solver.SetSourceTex | Assets/Reference/Scripts/Solver.cs:72-73 | the `SourceTex` setter changes only `sourceTex` |
| Diffusion.Solver.Initialize | Assets/Reference/Scripts/Solver.cs:110-126 | stores the thread-group size and returns the failures the check logs; whatever they are, the solver is then ready at the screen size, the heat pair and the engine are `Reinitialized` (pair acquired, `_HeatTex` published), and from a fresh solver both heat textures are cleared to `Color.clear` |
| Diffusion.Solver.InitializeComputeShader | Assets/Reference/Scripts/Solver.cs:139-155 | records the unshifted screen size, and the heat pair is `AcquirePair` at the size shifted by `lod` |
| Diffusion.Solver.CreateRenderTexture | Assets/Reference/Scripts/Solver.cs:193-212 | the solver's helper is `RenderUtility.Acquire` with wrap `Clamp` and filter `Point` |
| Diffusion.Solver.AcquireHeatTextures | Assets/Reference/Scripts/Solver.cs:145-146 | the two `CreateRenderTexture` calls yield exactly `AcquirePair` |
| Diffusion.Solver.ThermalDiffuseStep | Assets/Reference/Scripts/Solver.cs:159-187 | the field becomes `Step` of the old one; the trace gains exactly the dispatches and the blit; only the heat pair is written |
| Diffusion.Solver.InjectSource | Assets/Reference/Scripts/Solver.cs:163-171 | with a live source texture the field becomes `Injected` (one `AddSourceHeat` dispatch over the covering grid); with a null one nothing happens; only the heat pair is written |
| Diffusion.Solver.DiffuseAndCommit | Assets/Reference/Scripts/Solver.cs:173-185 | the field becomes `Settled` (diffuse, boundary, copy heat into prevHeat), the trace gains exactly those three commands, prevHeat becomes the active target, and only the heat pair is written |
| Diffusion.Solver.Advance | Assets/Reference/Scripts/Solver.cs:99-102 | after the loop the field is `Iterate(iteration)` of the old one and the trace gains `iteration` copies of the sub-step's commands; prevHeat is the active target after one or more sub-steps, and the active target is unchanged otherwise |
| Diffusion.Solver.Update | Assets/Reference/Scripts/Solver.cs:85-108 | the heat pair is kept when the screen size is unchanged; the field is the sub-steps applied to the old field, or to the re-acquired one after a resize; the commands are listed, ending with the two global publishes; the source texture keeps its contents (and so stays live), no texture outside the old and new heat pair changes, and the back buffer and the screen size stay; the active target is prevHeat after one or more sub-steps and unchanged otherwise |
| Diffusion.Solver.Refresh | Assets/Reference/Scripts/Solver.cs:89 | re-initialises exactly when the screen size differs from the recorded one: then the heat pair and the engine are `Reinitialized` of the old ones, the field is `Reacquired` and the commands are listed; otherwise nothing changes. Either way only the old heat pair is touched and the active target and the back buffer stay |
| RenderUtility.Acquire | Assets/Course/Scripts/RenderUtility.cs:11-26 | the engine stays valid and no texture disappears from the store |
| RenderUtility.AcquireSound | Assets/Course/Scripts/RenderUtility.cs:11-26 | returns `rt` itself unchanged when it is non-null and already the size asked for; otherwise releases it and returns a texture that did not exist, with the requested attributes, random write on, cleared to `Color.clear`; the result is always live and the requested size |
| RenderUtility.AcquireFramed | Assets/Course/Scripts/RenderUtility.cs:18-24 | affects no texture but `rt` and the fresh one; leaves the active target and the back buffer alone |
| RenderUtility.AcquireIdempotent | Assets/Course/Scripts/RenderUtility.cs:13-16 | asking again for the same size returns the same texture and issues nothing |
| RenderUtility.AcquireUnaffected | Assets/Course/Scripts/RenderUtility.cs:13-16 | the outcome of creating over `rt` depends only on `rt`'s own texture |
| RenderUtility.CreateRenderTexture | Assets/Course/Scripts/RenderUtility.cs:11-26 | the method's result and the new engine are `Acquire` of the old engine, with default wrap `Repeat` and filter `Bilinear` |
| RenderUtility.Replaced | Assets/Course/Scripts/RenderUtility.cs:18-24 | the slow path as a state: `rt` released, the next texture allocated with the requested attributes; its properties are `ReleaseThenCreate` and `AcquireSound` |
| RenderUtility.ReplaceRenderTexture | Assets/Course/Scripts/RenderUtility.cs:18-25 | the slow path releases `rt` and then creates and clears the next texture |
| RenderUtility.ReleaseThenCreate | Assets/Course/Scripts/RenderUtility.cs:18-25 | releasing first and then creating from null is the whole slow path |
| RenderUtility.NewClearedTexture | Assets/Course/Scripts/RenderUtility.cs:19-24 | construct, configure, create and clear give the next texture with the requested attributes, cleared |
| RenderUtility.NewConfiguredTexture | Assets/Course/Scripts/RenderUtility.cs:19-23 | the attributes are set one by one and the texture is created on the GPU |
| RenderUtility.Released | Assets/Course/Scripts/RenderUtility.cs:28-34 | `rt` is no longer present; nothing else changes; a null or already destroyed `rt` changes nothing; the release and destroy commands are issued only for a live one |
| RenderUtility.ReleaseRenderTexture | Assets/Course/Scripts/RenderUtility.cs:28-34 | the method's new engine is `Released` |
| RenderUtility.ReleaseIdempotent | Assets/Reference/Scripts/Solver.cs:234-240 | releasing twice is the same as releasing once |
| RenderUtility.Cleared | Assets/Course/Scripts/RenderUtility.cs:37-47 | the target (or the back buffer for null) holds `Filled(bg)`; the active target is restored; no other texture changes |
| RenderUtility.ClearRenderTexture | Assets/Reference/Scripts/Solver.cs:215-228 | the method's new engine is `Cleared` |
| Compositor.Chain | Assets/Reference/Scripts/RenderEffect.cs:35-41 | the effect materials applied to the image, the first one first; its properties are `ChainAppend` and `ChainIsLayered` |
| Compositor.ChainAppend | Assets/Reference/Scripts/RenderEffect.cs:35-41 | running two effect lists one after the other equals running their concatenation |
| Compositor.ChainIsLayered | Assets/Reference/Scripts/RenderEffect.cs:35-41 | applying effects first-to-last agrees with "last effect over all the others" |
| Compositor.EffectEventsAlternate | Assets/Reference/Scripts/RenderEffect.cs:35-41 | pass i blits with material i between the two distinct textures, and reads the texture pass i-1 wrote |
| Compositor.EffectEventsSilent | Assets/Reference/Scripts/RenderEffect.cs:35-41 | the effect loop issues only blits, no notifications |
| Compositor.EffectPasses | Assets/Reference/Scripts/RenderEffect.cs:35-41 | the engine after the effect loop, one blit per material from the front texture to the back one; the engine stays valid and no texture is made or lost |
| Compositor.EffectPassesFramed | Assets/Reference/Scripts/RenderEffect.cs:35-41 | the loop touches only the pair, makes, destroys and resizes no texture, and does not draw to the screen |
| Compositor.EffectPassesLayered | Assets/Reference/Scripts/RenderEffect.cs:35-41 | after the loop, the front texture holds the effects applied in order to the pair's first contents |
| Compositor.Realloc | Assets/Reference/Scripts/RenderEffect.cs:56-62 | the reallocating branch of `CheckRTs` as a state: the loop over the pair, `Output` re-acquired, `OnCreateTex(Output)`; its properties are `ReallocPrepared`, `ReallocFramed` and `ReallocTrace` |
| Compositor.ReallocEvents | Assets/Reference/Scripts/RenderEffect.cs:56-62 | the reallocating branch emits exactly one notification, `OnCreateTex(Output)` |
| Compositor.ReallocPrepared | Assets/Reference/Scripts/RenderEffect.cs:54-62 | after reallocating, each of the pair and `Output` is kept iff already the target size and otherwise fresh; all three are live, the target size and pairwise distinct |
| Compositor.ReallocFramed | Assets/Reference/Scripts/RenderEffect.cs:56-62 | reallocating touches no texture but the old pair and `Output`, nor the active target or the screen |
| Compositor.ReallocTrace | Assets/Reference/Scripts/RenderEffect.cs:56-62 | reallocating issues exactly the release/acquire commands for `rts[0]`, `rts[1]` and `Output`, in that order, then `OnCreateTex` |
| Compositor.AcquireEach | Assets/Reference/Scripts/RenderEffect.cs:56-60 | `CreateRenderTexture` over each slot in turn; one handle per slot, the engine valid, no texture lost |
| Compositor.AcquireEachPair | Assets/Reference/Scripts/RenderEffect.cs:56-60 | the `for` loop over `rts` acquires `rts[0]`, then `rts[1]` |
| Compositor.Checked | Assets/Reference/Scripts/RenderEffect.cs:52-64 | after `CheckRTs` the pair and `Output` are three distinct live textures of the target size |
| Compositor.CheckedTrace | Assets/Reference/Scripts/RenderEffect.cs:54 | `CheckRTs` issues nothing when `rts[0]` is already the target size, and the reallocation commands otherwise |
| Compositor.CheckedApart | Assets/Reference/Scripts/RenderEffect.cs:52-64 | a texture that is not one of the compositor's own is not one of its new ones either |
| Compositor.CheckedKeeps | Assets/Reference/Scripts/RenderEffect.cs:52-64 | `CheckRTs` keeps every foreign texture's size and contents |
| Compositor.Rendered | Assets/Reference/Scripts/RenderEffect.cs:32-49 | the part of `OnRenderImage` after `CheckRTs` as a state; its properties are `RenderedFramed`, `RenderedTrace` and `RenderedContents` |
| Compositor.RenderedFramed | Assets/Reference/Scripts/RenderEffect.cs:32-49 | a frame touches only the pair, `Output` and `dst`, and leaves `dst` active |
| Compositor.RenderedTrace | Assets/Reference/Scripts/RenderEffect.cs:32-49 | a frame issues, in order, the copy into `rts[0]`, one blit per effect, the copy into `Output` and the final blit |
| Compositor.ComposedContents | Assets/Reference/Scripts/RenderEffect.cs:32-44 | after the effect loop and the copy into `Output`, `Output` holds the effects applied in order to the resampled camera image, and the camera image and `dst` keep their size and contents |
| Compositor.RenderedContents | Assets/Reference/Scripts/RenderEffect.cs:32-49 | `Output` holds the effects applied in order to the resampled camera image; `dst` holds `Output` resampled when `show` is true, and the camera image resampled otherwise |
| Compositor.FrameShows | Assets/Reference/Scripts/RenderEffect.cs:28-50 | the same, stated for a whole `OnRenderImage` from the state before `CheckRTs` |
| Compositor.FrameShowsNoEffects | Assets/Reference/Scripts/RenderEffect.cs:35-44 | with no effects, `Output` holds the camera image resampled to the target size |
| Compositor.FrameNotifies | Assets/Reference/Scripts/RenderEffect.cs:28-64 | a frame emits no notification when the textures already fit, and exactly one `OnCreateTex(Output)` when they were reallocated |
| Compositor.ReleasedEach | Assets/Reference/Scripts/RenderEffect.cs:75-80 | `ReleaseRenderTexture` over each reference in turn; the engine stays valid and the store is unchanged |
| Compositor.ReleasedEachGone | Assets/Reference/Scripts/RenderEffect.cs:75-80 | after releasing a list of references none of them is present, and nothing else changed |
| Compositor.RenderEffect.constructor | Assets/Reference/Scripts/RenderEffect.cs:7-18 | both slots of `rts` and `Output` start null |
| Compositor.RenderEffect.Update | Assets/Reference/Scripts/RenderEffect.cs:20-25 | `show` flips exactly when the 6 key went down this frame, so two presses restore it |
| Compositor.RenderEffect.SwapRTs | Assets/Reference/Scripts/RenderEffect.cs:66-71 | the two slots are exchanged |
| Compositor.RenderEffect.OnRenderImage | Assets/Reference/Scripts/RenderEffect.cs:28-50 | the new engine is `Rendered` after `Checked`; `Output` is the checked output; after the loop `rts` holds the pair in the order the swaps left it |
| Compositor.RenderEffect.Render | Assets/Reference/Scripts/RenderEffect.cs:32-49 | the part after `CheckRTs` yields `Rendered` and keeps the handles valid |
| Compositor.RenderEffect.ApplyEffects | Assets/Reference/Scripts/RenderEffect.cs:35-41 | the loop yields `EffectPasses`, and `rts[0]` ends as the texture of parity `|effects|` |
| Compositor.RenderEffect.EffectPass | Assets/Reference/Scripts/RenderEffect.cs:38-40 | one pass blits from the front texture to the back one with effect i and swaps, extending `EffectPasses` by one effect and advancing the alternation |
| Compositor.RenderEffect.CheckRTs | Assets/Reference/Scripts/RenderEffect.cs:52-64 | the new handles and engine are `Checked` of the old ones |
| Compositor.RenderEffect.Reallocate | Assets/Reference/Scripts/RenderEffect.cs:56-62 | the new handles and engine are `Realloc` of the old ones |
| Compositor.RenderEffect.ReplaceOutput | Assets/Reference/Scripts/RenderEffect.cs:61-62 | `Output` is re-acquired and then announced |
| Compositor.RenderEffect.ReacquirePair | Assets/Reference/Scripts/RenderEffect.cs:56-60 | the loop's result is `AcquireEach` over the old `rts` |
| Compositor.RenderEffect.ReacquireAt | Assets/Reference/Scripts/RenderEffect.cs:58-59 | one iteration re-acquires `rts[i]` and leaves the other slot alone |
| Compositor.RenderEffect.OnDisable | Assets/Reference/Scripts/RenderEffect.cs:75-80 | releases `rts[0]`, `rts[1]` and `Output` in that order; none of them is present afterwards |
| MouseSource.Dropped | Assets/Reference/Scripts/MouseSourceProvider.cs:89-92 | `Destroy(addSourceTex)`: afterwards it is not present, only it is affected, and a `Destroy` command is issued only for a live texture |
| MouseSource.SourceTexture | Assets/Reference/Scripts/MouseSourceProvider.cs:40 | the new source texture: the screen size shifted by `lod`, no depth, `RHalf`, not cleared; stated by `SizedSound` |
| MouseSource.Fresh | Assets/Reference/Scripts/MouseSourceProvider.cs:38-40 | the reallocating branch: afterwards the engine is valid and the new texture is live; its contents are stated by `SizedSound` |
| MouseSource.Sized | Assets/Reference/Scripts/MouseSourceProvider.cs:34-42 | `InitializeSourceTex` as a state: the result is live and the engine valid; its properties are `SizedSound` and `SizedSettlesIff` |
| MouseSource.SizedSound | Assets/Reference/Scripts/MouseSourceProvider.cs:34-42 | keeps a texture of the unshifted screen size; otherwise destroys it and allocates a new texture, screen size shifted by `lod`, `RHalf`, not cleared; nothing else is touched |
| MouseSource.SizedSettlesIff | Assets/Reference/Scripts/MouseSourceProvider.cs:36-40 | a freshly allocated source texture passes the next frame's size test iff `lod` is 0 mod 32 or the screen is 0 x 0 |
| MouseSource.UpdateReallocatesAgain | Assets/Reference/Scripts/MouseSourceProvider.cs:23-42 | with a non-zero `lod` and a non-empty screen, every `Update` reallocates the source texture again |
| MouseSource.SizedAsIntended | Assets/Reference/Scripts/MouseSourceProvider.cs:36-40 | the size test corrected to compare against the shifted size yields a live texture |
| MouseSource.SizedAsIntendedSettles | Assets/Reference/Scripts/MouseSourceProvider.cs:36-40 | with the corrected test, the texture passes its own size test and the next frame keeps it |
| MouseSource.SourceEvents | Assets/Reference/Scripts/MouseSourceProvider.cs:52-66 | `UpdateSource` emits exactly one notification, carrying the source texture when the button is held and null otherwise |
| MouseSource.Sourced | Assets/Reference/Scripts/MouseSourceProvider.cs:44-68 | `UpdateSource` as a state: the impulse blit and the notification with the texture when the button is held, the notification with null otherwise; its properties are `SourcedSound` and `SourceEvents` |
| MouseSource.SourcedSound | Assets/Reference/Scripts/MouseSourceProvider.cs:44-68 | only the source texture is painted, and only when the button is held; it then holds the impulse at the pointer; the screen is not drawn to |
| MouseSource.Updated | Assets/Reference/Scripts/MouseSourceProvider.cs:23-27 | `Update` as a state: `Sized` at the screen size, then `Sourced`; its properties are `UpdateNotifiesOnce`, `UpdateTrace` and `UpdateReallocatesAgain` |
| MouseSource.UpdateNotifiesOnce | Assets/Reference/Scripts/MouseSourceProvider.cs:23-27 | every `Update` emits exactly one `OnSourceUpdated`, with the current source texture iff the button is held |
| MouseSource.UpdateTrace | Assets/Reference/Scripts/MouseSourceProvider.cs:23-27 | `Update` issues the size check's commands, then the source update's |
| MouseSource.Displacement | Assets/Reference/Scripts/MouseSourceProvider.cs:82-87 | the displacement added to the last position gives the new one |
| MouseSource.MouseSourceProvider.constructor | Assets/Reference/Scripts/MouseSourceProvider.cs:8-21 | no source texture, `lod` 0, last position at the origin |
| MouseSource.MouseSourceProvider.Update | Assets/Reference/Scripts/MouseSourceProvider.cs:23-27 | the new texture and engine are `Updated` of the old ones at the screen size; `lod` is re-read from the solver iff the texture was reallocated |
| MouseSource.MouseSourceProvider.InitializeSourceTex | Assets/Reference/Scripts/MouseSourceProvider.cs:34-42 | the new texture and engine are `Sized`; `lod` is re-read from the solver iff the size test failed |
| MouseSource.MouseSourceProvider.UpdateSource | Assets/Reference/Scripts/MouseSourceProvider.cs:44-68 | the new engine is `Sourced` |
| MouseSource.MouseSourceProvider.NotifySourceTexUpdate | Assets/Reference/Scripts/MouseSourceProvider.cs:70-74 | appends `OnSourceUpdated(addSourceTex)` and changes nothing else |
| MouseSource.MouseSourceProvider.NotifyNoSourceTexUpdate | Assets/Reference/Scripts/MouseSourceProvider.cs:76-80 | appends `OnSourceUpdated(null)` and changes nothing else |
| MouseSource.MouseSourceProvider.UpdateMousePos | Assets/Reference/Scripts/MouseSourceProvider.cs:82-87 | returns the displacement from the last position and stores the new one |
| MouseSource.MouseSourceProvider.ReleaseForceField | Assets/Reference/Scripts/MouseSourceProvider.cs:89-92 | destroys the source texture, if any |
| MouseSource.MouseSourceProvider.OnDestroy | Assets/Reference/Scripts/MouseSourceProvider.cs:29-32 | afterwards the source texture is not present |

## Left out

- Floating point is not modelled. This covers:
  - the thermal coefficients, the time step and the grid spacing (`SetFloat` calls on the compute shader);
  - `sourceRadius`;
  - the `Vector2` viewport position.

  The published intensity is a `real` that the model carries without interpreting it.
- `Camera.ScreenToViewportPoint` is not modelled. The impulse material takes the pointer position in screen pixels.
- MouseSource.Displacement: the `Vector3` arithmetic of `UpdateMousePos` is modelled over integers, not floats.
- Kernel and material bodies (`ThermalDiffusion.compute`, the effect and `AddSource` shaders) are not part of this model. Their outputs are symbolic terms naming the kernel or material and its inputs.
- Diffusion.CeilDiv: `Mathf.CeilToInt(a / (float)b)` is modelled as exact integer ceiling division. Float rounding for very large sizes is ignored.
- Diffusion.Solver.Initialize: `FindKernel` and `GetKernelThreadGroupSizes` are not modelled. The thread sizes are parameters, required to be positive `int`s.
  - A failed `Assert.IsTrue` only logs, and `Start` goes on to `InitializeComputeShader` (`Solver.cs:123-125`). The model returns the list of logged failures and initialises either way. The log text is not modelled.
  - The graphics shader level is a parameter.
- Several serialized fields are constants fixed at construction, because no code in the model changes them:
  - `lod`, `iteration` and the intensity of `Solver`;
  - `effects`, `format`, `wrapMode` and `downSample` of `RenderEffect`.
- `Solver.CleanUp` is not modelled as a member. Nothing calls it. Its effect is two `Released` steps.
- Debug logging under `UNITY_EDITOR` and Unity's lifecycle calls (`Start`, the frame loop) are left out. The model's members are called in the order Unity would call them.
- `Object.Destroy` is modelled as immediate. Unity defers it to the end of the frame, and nothing in the model reads a destroyed texture in the same frame.
- Events are not simulated; they are recorded in the trace. The listeners of `OnSourceUpdated` and `OnCreateTex` are wired in the scene, not in code. `Diffusion.Solver.SetSourceTex` is the setter they would call.
- `Assets/Reference/Scripts/RenderUtility.cs` is not part of this model. The Course `RenderUtility` serves both copies.
- Compositor.FrameShows and Compositor.RenderedContents need the camera image and `dst` to be distinct from the compositor's own textures. When they alias, Unity's result depends on the blit order and is not stated.
- `Assets/Course/Scripts/MouseSourceProvider.cs` is the same code as the Reference copy without `UpdateMousePos` (`Update` at 23-27, `InitializeSourceTex` at 34-42, `UpdateSource` at 44-66, the two notifications at 68-72 and 74-78, `ReleaseForceField` at 80-83). The one `MouseSourceProvider` class models both, and the table cites the Reference lines.
- MouseSource.MouseSourceProvider.UpdateMousePos: nothing in the source calls it. It is modelled on its own, and `Update` leaves `lastMousePos` unchanged. The Course copy has no such method.
- Mouse input (`Input.GetMouseButton(0)` and `Input.mousePosition`) is a parameter of `MouseSourceProvider.Update`. The screen size is read from the engine state.

## Findings

| source | as written | input that shows it | evidently intended | confidence | as-written member | corrected member |
|---|---|---|---|---|---|---|
| Assets/Reference/Scripts/MouseSourceProvider.cs:36-40 (same in Assets/Course/Scripts/MouseSourceProvider.cs:36-40) | the size test compares the source texture with the unshifted screen size, but the texture is created at the size shifted right by `lod` | `lod` = 1 on an 800 x 600 screen: the texture is 400 x 300, fails the test on every frame, and is destroyed and re-created every `Update` | compare with `width >> lod` x `height >> lod`, so that the texture is kept while the screen size stays the same | medium, not executed | MouseSource.UpdateReallocatesAgain | MouseSource.SizedAsIntendedSettles |
