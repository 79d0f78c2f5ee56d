/**
 * The diffusion stepper (`Reference.Solver`): two heat textures at the
 * screen size shifted right by `lod`, reallocated when the screen size
 * changes, advanced each frame by `iteration` sub-steps of three compute
 * dispatches and a copy, then published to the renderer.
 */
module Diffusion {
  import opened CSharp
  import opened Gpu
  import opened RenderUtility

  /** `GPUThreads`: a kernel's thread-group shape. */
  datatype GpuThreads = GpuThreads(x: int, y: int, z: int)

  /** The DirectCompute 5.0 limits (`DirectCompute5_0`). */
  const MaxThread: int := 1024
  const MaxX: int := 1024
  const MaxY: int := 1024
  const MaxZ: int := 64
  const MaxDispatch: int := 65535
  const MaxProcess: int := MaxDispatch * MaxThread

  /** A start-up assertion that does not hold. */
  datatype CheckFailure =
    | ShaderLevelTooLow
    | TooManyThreads
    | ThreadXTooLarge
    | ThreadYTooLarge
    | ThreadZTooLarge

  /** `InitialCheck`: the failures `Assert.IsTrue` logs, one per assertion
      that does not hold, in source order; the thread product is computed
      in C# `int`, left to right. */
  function InitialCheck(shaderLevel: int, t: GpuThreads): seq<CheckFailure>
    requires InInt32(t.x) && InInt32(t.y) && InInt32(t.z)
  {
    (if shaderLevel < 50 then [ShaderLevelTooLow] else [])
    + (if MulInt(MulInt(t.x, t.y), t.z) > MaxProcess then [TooManyThreads] else [])
    + (if t.x > MaxX then [ThreadXTooLarge] else [])
    + (if t.y > MaxY then [ThreadYTooLarge] else [])
    + (if t.z > MaxZ then [ThreadZTooLarge] else [])
  }

  /** `a * b` grows with each non-negative factor. */
  lemma MulBound(a: int, b: int, ma: int, mb: int)
    requires 0 <= a <= ma && 0 <= b <= mb
    ensures a * b <= ma * mb
  {
    assert a * b <= ma * b;
    assert ma * b <= ma * mb;
  }

  /** Within the axis limits the product cannot wrap: the C# product is the
      true one. */
  lemma ProductExact(t: GpuThreads)
    requires 1 <= t.x <= MaxX && 1 <= t.y <= MaxY && 1 <= t.z <= MaxZ
    ensures MulInt(MulInt(t.x, t.y), t.z) == t.x * t.y * t.z
  {
    MulBound(t.x, t.y, MaxX, MaxY);
    MulBound(t.x * t.y, t.z, MaxX * MaxY, MaxZ);
  }

  /** For a real thread-group shape (every axis at least 1), the check passes
      exactly when the shader level is 50 or more, the true product x*y*z is
      at most MaxProcess (no wrap-around can fool it) and each axis is within
      its own limit. */
  lemma InitialCheckPasses(shaderLevel: int, t: GpuThreads)
    requires 1 <= t.x <= IntMax && 1 <= t.y <= IntMax && 1 <= t.z <= IntMax
    ensures InitialCheck(shaderLevel, t) == [] <==>
      shaderLevel >= 50 && t.x * t.y * t.z <= MaxProcess
      && t.x <= MaxX && t.y <= MaxY && t.z <= MaxZ
  {
    if t.x <= MaxX && t.y <= MaxY && t.z <= MaxZ {
      ProductExact(t);
    }
  }

  /** The limit on the product is MaxProcess, not MaxThread: a 2048-thread
      group passes, while a group at every axis maximum does not. */
  lemma ProcessLimitNotThreadLimit()
    ensures InitialCheck(50, GpuThreads(32, 32, 2)) == []
    ensures 32 * 32 * 2 > MaxThread
    ensures InitialCheck(50, GpuThreads(MaxX, MaxY, MaxZ)) == [TooManyThreads]
  {
    InitialCheckPasses(50, GpuThreads(32, 32, 2));
    InitialCheckPasses(50, GpuThreads(MaxX, MaxY, MaxZ));
  }

  /** `Mathf.CeilToInt(a / (float)b)` for a positive `b`, over the integers:
      the fewest groups of `b` that cover `a`. */
  function CeilDiv(a: int, b: int): (q: int)
    requires b > 0
    ensures q * b >= a && (q - 1) * b < a
  {
    var q := (a + b - 1) / b;
    var r := (a + b - 1) % b;
    assert a + b - 1 == q * b + r && 0 <= r < b;
    assert (q - 1) * b == q * b - b;
    q
  }

  /** At most one group count covers `a` with nothing to spare. */
  lemma CoverIsUnique(a: int, b: int, n: int, m: int)
    requires b > 0
    requires n * b >= a && (n - 1) * b < a
    requires m * b >= a && (m - 1) * b < a
    ensures n == m
  {
  }

  datatype Grid = Grid(x: int, y: int, z: int)

  /** The dispatch grid of every kernel: one group per `threads.x` columns and
      per `threads.y` rows of the heat texture, rounded up, one layer. */
  function DispatchGrid(width: int, height: int, t: GpuThreads): (g: Grid)
    requires t.x > 0 && t.y > 0
    ensures g.z == 1
    ensures g.x * t.x >= width && (g.x - 1) * t.x < width
    ensures g.y * t.y >= height && (g.y - 1) * t.y < height
  {
    Grid(CeilDiv(width, t.x), CeilDiv(height, t.y), 1)
  }

  /** The heat field: what `heatTex` and `prevHeatTex` hold. */
  datatype Field = Field(heat: Pixels, prev: Pixels)

  /** The kernel outputs written into `_Heat` and `_PrevHeat` by kernel `k`
      reading `inputs`. */
  function Run(k: Kernel, inputs: seq<Pixels>): Field
  {
    Field(Computed(k, HeatSlot, inputs), Computed(k, PrevHeatSlot, inputs))
  }

  /** One `ThermalDiffuseStep` on the field, given the source contents when a
      source texture is set: inject (only with a source), diffuse, enforce the
      boundary, then copy heat into prevHeat. */
  function Step(source: Option<Pixels>, f: Field): (r: Field)
    ensures r.heat == r.prev
  {
    Settled(Injected(source, f))
  }

  /** The injection kernel's effect: it reads source, heat and prevHeat and
      writes heat and prevHeat; with no source texture nothing happens. */
  function Injected(source: Option<Pixels>, f: Field): Field
  {
    if source.Some? then Run(AddSourceHeat, [source.value, f.heat, f.prev]) else f
  }

  /** Diffuse (reads heat and prevHeat, writes both), enforce the boundary
      (reads and writes heat only), then copy heat into prevHeat. */
  function Settled(f: Field): (r: Field)
    ensures r.heat == r.prev
  {
    var diffused := Run(DiffuseHeat, [f.heat, f.prev]);
    var bounded := Computed(SetBoundaryHeat, HeatSlot, [diffused.heat]);
    Field(bounded, bounded)
  }

  /** `n` steps. */
  function Iterate(n: nat, source: Option<Pixels>, f: Field): Field
  {
    if n == 0 then f else Step(source, Iterate(n - 1, source, f))
  }

  /** Whether kernel `k` contributed to `p`. */
  predicate Uses(p: Pixels, k: Kernel)
  {
    match p
    case Computed(k', _, inputs) => k' == k || exists i :: 0 <= i < |inputs| && Uses(inputs[i], k)
    case Scaled(image, _, _) => Uses(image, k)
    case Shaded(_, input) => Uses(input, k)
    case _ => false
  }

  predicate FieldUses(f: Field, k: Kernel)
  {
    Uses(f.heat, k) || Uses(f.prev, k)
  }

  /** Without a source texture the injection kernel never runs: a field that
      owes nothing to it still owes nothing to it after any number of steps. */
  lemma {:induction false} NoSourceNoInjection(n: nat, f: Field)
    requires !FieldUses(f, AddSourceHeat)
    ensures !FieldUses(Iterate(n, None, f), AddSourceHeat)
  {
    if n > 0 {
      NoSourceNoInjection(n - 1, f);
      var g := Iterate(n - 1, None, f);
      var d := Run(DiffuseHeat, [g.heat, g.prev]);
      assert !Uses(d.heat, AddSourceHeat) by {
        assert forall i :: 0 <= i < 2 ==> !Uses([g.heat, g.prev][i], AddSourceHeat);
      }
      var b := Computed(SetBoundaryHeat, HeatSlot, [d.heat]);
      assert !Uses(b, AddSourceHeat) by {
        assert forall i :: 0 <= i < 1 ==> !Uses([d.heat][i], AddSourceHeat);
      }
    }
  }

  /** With a source texture every step injects: after one or more steps the
      field owes something to the injection kernel. */
  lemma SourceInjects(n: nat, s: Pixels, f: Field)
    requires n >= 1
    ensures FieldUses(Iterate(n, Some(s), f), AddSourceHeat)
  {
    var g := Iterate(n - 1, Some(s), f);
    var inj := Run(AddSourceHeat, [s, g.heat, g.prev]);
    assert Uses(inj.heat, AddSourceHeat);
    var d := Run(DiffuseHeat, [inj.heat, inj.prev]);
    assert Uses(d.heat, AddSourceHeat) by {
      assert [inj.heat, inj.prev][0] == inj.heat;
    }
    assert Uses(Computed(SetBoundaryHeat, HeatSlot, [d.heat]), AddSourceHeat) by {
      assert [d.heat][0] == d.heat;
    }
  }

  /** The commands of one `ThermalDiffuseStep`. */
  function StepEvents(hasSource: bool, g: Grid, heat: nat, prev: nat): seq<Event>
  {
    InjectEvents(hasSource, g) + SettleEvents(g, heat, prev)
  }

  function InjectEvents(hasSource: bool, g: Grid): seq<Event>
  {
    if hasSource then [Dispatch(AddSourceHeat, g.x, g.y, g.z)] else []
  }

  function SettleEvents(g: Grid, heat: nat, prev: nat): seq<Event>
  {
    [Dispatch(DiffuseHeat, g.x, g.y, g.z),
     Dispatch(SetBoundaryHeat, g.x, g.y, g.z),
     Event.Blit(Some(heat), Some(prev), None)]
  }

  /** `n` copies of `s`, back to back. */
  function Repeated(n: nat, s: seq<Event>): (r: seq<Event>)
    ensures |r| == n * |s|
  {
    if n == 0 then [] else Repeated(n - 1, s) + s
  }

  /** How many kernel dispatches a trace holds. */
  function Dispatches(s: seq<Event>): nat
  {
    if s == [] then 0 else Dispatches(s[..|s| - 1]) + (if s[|s| - 1].Dispatch? then 1 else 0)
  }

  lemma {:induction false} DispatchesAppend(a: seq<Event>, b: seq<Event>)
    ensures Dispatches(a + b) == Dispatches(a) + Dispatches(b)
    decreases |b|
  {
    if b == [] {
      assert a + b == a;
    } else {
      assert (a + b)[..|a + b| - 1] == a + b[..|b| - 1];
      DispatchesAppend(a, b[..|b| - 1]);
    }
  }

  /** A frame of `n` sub-steps dispatches three kernels per sub-step with a
      source texture and two without. */
  lemma {:induction false} FrameDispatches(n: nat, hasSource: bool, g: Grid, heat: nat, prev: nat)
    ensures Dispatches(Repeated(n, StepEvents(hasSource, g, heat, prev))) == n * (if hasSource then 3 else 2)
  {
    var step := StepEvents(hasSource, g, heat, prev);
    assert Dispatches(step) == (if hasSource then 3 else 2) by {
      var tail := [Dispatch(DiffuseHeat, g.x, g.y, g.z), Dispatch(SetBoundaryHeat, g.x, g.y, g.z),
                   Event.Blit(Some(heat), Some(prev), None)];
      assert tail[..1][..0] == [];
      assert Dispatches(tail[..1]) == 1;
      assert tail[..2][..1] == tail[..1];
      assert Dispatches(tail[..2]) == 2;
      assert tail[..|tail| - 1] == tail[..2];
      DispatchesAppend(if hasSource then [Dispatch(AddSourceHeat, g.x, g.y, g.z)] else [], tail);
    }
    if n > 0 {
      FrameDispatches(n - 1, hasSource, g, heat, prev);
      DispatchesAppend(Repeated(n - 1, step), step);
    }
  }

  /** A trace that publishes nothing to the renderer. */
  predicate Unpublished(s: seq<Event>)
  {
    forall i :: 0 <= i < |s| ==> !s[i].SetGlobalTexture? && !s[i].SetGlobalFloat? && !IsNotification(s[i])
  }

  /** The sub-steps of a frame neither publish nor notify: the heat texture
      and intensity reach the renderer only after the loop. */
  lemma {:induction false} FrameUnpublished(n: nat, hasSource: bool, g: Grid, heat: nat, prev: nat)
    ensures Unpublished(Repeated(n, StepEvents(hasSource, g, heat, prev)))
  {
    if n > 0 {
      FrameUnpublished(n - 1, hasSource, g, heat, prev);
      var a := Repeated(n - 1, StepEvents(hasSource, g, heat, prev));
      var b := StepEvents(hasSource, g, heat, prev);
      assert forall i :: |a| <= i < |a + b| ==> (a + b)[i] == b[i - |a|];
    }
  }

  /** The commands of the two `CreateRenderTexture` calls. */
  function PairEvents(s: EngineState, oldHeat: TexRef, oldPrev: TexRef, heat: nat, prev: nat,
                      w: int, h: int): seq<Event>
  {
    AcquireEvents(s, oldHeat, heat, w, h) + AcquireEvents(s, oldPrev, prev, w, h)
  }

  /** The commands of `InitializeComputeShader` from state `s`, given the old
      and new heat and prevHeat textures and the new size. */
  function InitEvents(s: EngineState, oldHeat: TexRef, oldPrev: TexRef, heat: nat, prev: nat,
                      w: int, h: int): seq<Event>
  {
    PairEvents(s, oldHeat, oldPrev, heat, prev, w, h) + [SetGlobalTexture("_HeatTex", Some(heat))]
  }

  /** The field right after `InitializeComputeShader` from state `s`: each
      texture kept with its contents when already `w` x `h`, cleared otherwise. */
  function Reacquired(s: EngineState, heat: TexRef, prev: TexRef, w: int, h: int): Field
  {
    Field(AcquiredContents(s, heat, w, h), AcquiredContents(s, prev, w, h))
  }

  /** The heat and prevHeat textures `InitializeComputeShader` ends up with,
      and the engine after. */
  datatype HeatPair = HeatPair(state: EngineState, heat: nat, prev: nat)

  /**
   * The two `CreateRenderTexture` calls of `InitializeComputeShader` from
   * state `s` (`RHalf`, no depth, Clamp, Point): two distinct live textures
   * of the requested size, each the old one with its contents when that was
   * already the size, otherwise a texture that did not exist before, cleared;
   * no texture but the two old ones is affected.
   */
  function AcquirePair(s: EngineState, heat: TexRef, prev: TexRef, w: int, h: int): (r: HeatPair)
    requires s.Valid() && s.Known(heat) && s.Known(prev) && (heat.Some? ==> heat != prev)
    ensures r.state.Present(Some(r.heat)) && r.state.Present(Some(r.prev)) && r.heat != r.prev
    ensures HasSize(r.state, r.heat, w, h) && HasSize(r.state, r.prev, w, h)
    ensures Field(r.state.store[r.heat].contents, r.state.store[r.prev].contents) == Reacquired(s, heat, prev, w, h)
    ensures r.state.trace == s.trace + PairEvents(s, heat, prev, r.heat, r.prev, w, h)
    ensures Framed(s, r.state, Ids(heat) + Ids(prev))
    ensures Some(r.heat) == heat || r.heat !in s.store
    ensures Some(r.prev) == prev || r.prev !in s.store
    ensures Reusable(s, heat, w, h) ==> heat == Some(r.heat)
    ensures Reusable(s, prev, w, h) ==> prev == Some(r.prev)
  {
    var a := Acquire(s, heat, w, h, 0, RHalf, Clamp, Point);
    AcquireSound(s, heat, w, h, 0, RHalf, Clamp, Point);
    AcquireFramed(s, heat, w, h, 0, RHalf, Clamp, Point);
    var b := Acquire(a.state, prev, w, h, 0, RHalf, Clamp, Point);
    AcquireSound(a.state, prev, w, h, 0, RHalf, Clamp, Point);
    AcquireFramed(a.state, prev, w, h, 0, RHalf, Clamp, Point);
    AcquireUnaffected(s, a.state, Ids(heat), prev, b.id, w, h);
    FramedTrans(s, a.state, b.state, Ids(heat), Ids(prev));
    AppendAssoc(s.trace, AcquireEvents(s, heat, a.id, w, h), AcquireEvents(s, prev, b.id, w, h));
    HeatPair(b.state, a.id, b.id)
  }

  /**
   * `InitializeComputeShader` from state `s`: the two acquisitions, then the
   * heat texture published as `_HeatTex`. The heat textures hold
   * `Reacquired` and only the two old ones may have been replaced.
   */
  function Reinitialized(s: EngineState, heat: TexRef, prev: TexRef, w: int, h: int): (r: HeatPair)
    requires s.Valid() && s.Known(heat) && s.Known(prev) && (heat.Some? ==> heat != prev)
    ensures r.state.Present(Some(r.heat)) && r.state.Present(Some(r.prev)) && r.heat != r.prev
    ensures HasSize(r.state, r.heat, w, h) && HasSize(r.state, r.prev, w, h)
    ensures Field(r.state.store[r.heat].contents, r.state.store[r.prev].contents) == Reacquired(s, heat, prev, w, h)
    ensures r.state.trace == s.trace + InitEvents(s, heat, prev, r.heat, r.prev, w, h)
    ensures Framed(s, r.state, Ids(heat) + Ids(prev))
    ensures Reusable(s, heat, w, h) ==> heat == Some(r.heat)
    ensures Reusable(s, prev, w, h) ==> prev == Some(r.prev)
  {
    var p := AcquirePair(s, heat, prev, w, h);
    var trace := p.state.trace + [SetGlobalTexture("_HeatTex", Some(p.heat))];
    AppendAssoc(s.trace, PairEvents(s, heat, prev, p.heat, p.prev, w, h), [SetGlobalTexture("_HeatTex", Some(p.heat))]);
    FramedRetrace(s, p.state, Ids(heat) + Ids(prev), trace);
    p.(state := p.state.(trace := trace))
  }

  /** After `InitializeComputeShader` the heat textures are ready for a
      source texture the solver held before, whose contents are unchanged. */
  lemma ReinitializedReady(s: EngineState, source: TexRef, heat: TexRef, prev: TexRef, w: int, h: int)
    requires Handles(s, source, heat, prev)
    ensures var r := Reinitialized(s, heat, prev, w, h);
      && HeatReady(r.state, source, Some(r.heat), Some(r.prev), w, h)
      && SourceIn(r.state, source) == SourceIn(s, source)
  {
    var p := AcquirePair(s, heat, prev, w, h);
  }

  /** The commands that publish the frame's result. */
  function PublishEvents(heat: nat, intensity: real): seq<Event>
  {
    [SetGlobalTexture("_HeatTex", Some(heat)), SetGlobalFloat("_AddingHeatIntensity", intensity)]
  }

  /** The contents of the source texture in state `s`, if it is not null. */
  function SourceIn(s: EngineState, source: TexRef): Option<Pixels>
    requires s.Known(source)
  {
    if s.Present(source) then Some(s.store[source.value].contents) else None
  }

  /** The solver's handles in engine state `s`: all allocated, the source
      texture never one of the heat textures, the heat textures distinct. */
  predicate Handles(s: EngineState, source: TexRef, heat: TexRef, prev: TexRef)
  {
    && s.Valid()
    && s.Known(source) && s.Known(heat) && s.Known(prev)
    && (source.Some? ==> source != heat && source != prev)
    && (heat.Some? ==> heat != prev)
  }

  /** Both heat textures exist and are `w` x `h`. */
  predicate HeatReady(s: EngineState, source: TexRef, heat: TexRef, prev: TexRef, w: int, h: int)
  {
    && Handles(s, source, heat, prev)
    && s.Present(heat) && s.Present(prev)
    && HasSize(s, heat.value, w, h) && HasSize(s, prev.value, w, h)
  }

  /** `width != Screen.width || height != Screen.height`. */
  predicate Resized(s: EngineState, width: int, height: int)
  {
    width != s.screenWidth || height != s.screenHeight
  }

  class Solver {
    const engine: Engine
    /** Level-of-detail shift of the heat textures. */
    const lod: int
    /** Sub-steps per frame. */
    const iteration: int
    /** `addingHeatIntensity`, published for the renderer. */
    const intensity: real
    var threads: GpuThreads
    var heatTex: TexRef
    var prevHeatTex: TexRef
    /** The unshifted screen size the textures were made for. */
    var width: int
    var height: int
    /** `SourceTex`: the latest source texture notified, or null. */
    var sourceTex: TexRef

    predicate Valid()
      reads this, engine
    {
      Handles(engine.st, sourceTex, heatTex, prevHeatTex)
    }

    /** After a successful start: both heat textures exist, are distinct, and
        are sized `width >> lod` x `height >> lod`. */
    predicate Ready()
      reads this, engine
    {
      && threads.x > 0 && threads.y > 0
      && HeatReady(engine.st, sourceTex, heatTex, prevHeatTex, Shr(width, lod), Shr(height, lod))
    }

    function CurrentField(): Field
      reads this, engine
      requires Ready()
    {
      Field(engine.st.store[heatTex.value].contents, engine.st.store[prevHeatTex.value].contents)
    }

    /** What the injection kernel reads this frame, if it runs. */
    function SourceContents(): Option<Pixels>
      reads this, engine
      requires engine.st.Known(sourceTex)
    {
      SourceIn(engine.st, sourceTex)
    }

    /** `iteration` as a loop bound: `for (i = 0; i < iteration; i++)` runs
        no step for a negative count. */
    function Steps(): nat
    {
      if iteration < 0 then 0 else iteration
    }

    function Grid(): Grid
      reads this, engine
      requires Ready()
    {
      DispatchGrid(engine.st.store[heatTex.value].width, engine.st.store[heatTex.value].height, threads)
    }

    /** The textures this solver owns. */
    function Owned(): set<nat>
      reads this
    {
      Ids(heatTex) + Ids(prevHeatTex)
    }

    constructor (engine: Engine, lod: int, iteration: int, intensity: real)
      requires engine.st.Valid()
      ensures Valid() && this.engine == engine
      ensures this.lod == lod && this.iteration == iteration && this.intensity == intensity
      ensures heatTex == None && prevHeatTex == None && sourceTex == None
      ensures width == 0 && height == 0
    {
      this.engine := engine;
      this.lod := lod;
      this.iteration := iteration;
      this.intensity := intensity;
      threads := GpuThreads(0, 0, 0);
      heatTex, prevHeatTex, sourceTex := None, None, None;
      width, height := 0, 0;
    }

    /** The `SourceTex` setter, which the source provider's notification calls. */
    method SetSourceTex(t: TexRef)
      requires Valid() && engine.st.Known(t)
      requires t.Some? ==> t != heatTex && t != prevHeatTex
      modifies this
      ensures Valid() && sourceTex == t
      ensures heatTex == old(heatTex) && prevHeatTex == old(prevHeatTex)
      ensures threads == old(threads) && width == old(width) && height == old(height)
    {
      sourceTex := t;
    }

    /**
     * `Start` / `Initialize`: take the thread-group shape of the injection
     * kernel, run the start-up check, then allocate the heat textures. A
     * failed check is only logged: the textures are allocated either way,
     * and `failures` lists what was logged.
     */
    method Initialize(threadX: int, threadY: int, threadZ: int, shaderLevel: int)
      returns (failures: seq<CheckFailure>)
      requires Valid()
      requires 1 <= threadX <= IntMax && 1 <= threadY <= IntMax && 1 <= threadZ <= IntMax
      modifies this, engine
      ensures failures == InitialCheck(shaderLevel, GpuThreads(threadX, threadY, threadZ))
      ensures threads == GpuThreads(threadX, threadY, threadZ) && sourceTex == old(sourceTex)
      ensures Ready() && width == old(engine.st.screenWidth) && height == old(engine.st.screenHeight)
      ensures HeatPair(engine.st, heatTex.value, prevHeatTex.value)
           == Reinitialized(old(engine.st), old(heatTex), old(prevHeatTex), Shr(width, lod), Shr(height, lod))
      ensures old(heatTex) == None && old(prevHeatTex) == None ==>
        CurrentField() == Field(Filled(Transparent), Filled(Transparent))
    {
      threads := GpuThreads(threadX, threadY, threadZ);
      failures := InitialCheck(shaderLevel, threads);
      InitializeComputeShader();
    }

    /**
     * `InitializeComputeShader`: record the unshifted screen size, acquire
     * both heat textures at the shifted size and publish the heat texture.
     */
    method InitializeComputeShader()
      requires Valid() && threads.x > 0 && threads.y > 0
      modifies this, engine
      ensures Ready() && SourceContents() == old(SourceContents())
      ensures width == old(engine.st.screenWidth) && height == old(engine.st.screenHeight)
      ensures threads == old(threads) && sourceTex == old(sourceTex)
      ensures HeatPair(engine.st, heatTex.value, prevHeatTex.value)
           == Reinitialized(old(engine.st), old(heatTex), old(prevHeatTex), Shr(width, lod), Shr(height, lod))
    {
      ghost var s0 := engine.st;
      width := engine.st.screenWidth;
      height := engine.st.screenHeight;
      var heat, prev := AcquireHeatTextures(Shr(width, lod), Shr(height, lod));
      heatTex, prevHeatTex := Some(heat), Some(prev);
      engine.PublishTexture("_HeatTex", heatTex);
      ReinitializedReady(s0, sourceTex, old(heatTex), old(prevHeatTex), Shr(width, lod), Shr(height, lod));
    }

    /** The two `CreateRenderTexture` calls of `InitializeComputeShader`. */
    method AcquireHeatTextures(w: int, h: int) returns (heat: nat, prev: nat)
      requires Valid()
      modifies engine
      ensures HeatPair(engine.st, heat, prev) == AcquirePair(old(engine.st), heatTex, prevHeatTex, w, h)
    {
      heat := CreateRenderTexture(w, h, 0, RHalf, heatTex);
      prev := CreateRenderTexture(w, h, 0, RHalf, prevHeatTex);
    }

    /** `Solver.CreateRenderTexture`: the shared allocator with Clamp wrap and
        Point filter. */
    method CreateRenderTexture(w: int, h: int, depth: int, format: Format, rt: TexRef)
      returns (r: nat)
      requires engine.st.Valid() && engine.st.Known(rt)
      modifies engine
      ensures Acquisition(engine.st, r) == Acquire(old(engine.st), rt, w, h, depth, format, Clamp, Point)
    {
      r := RenderUtility.CreateRenderTexture(engine, w, h, depth, format, Clamp, Point, rt);
    }

    /**
     * `ThermalDiffuseStep`: inject (only when a source texture is set),
     * diffuse, enforce the boundary, each dispatched over the grid that
     * covers the heat texture, then copy heat into prevHeat.
     */
    method ThermalDiffuseStep()
      requires Ready()
      modifies engine
      ensures Ready()
      ensures CurrentField() == Step(old(SourceContents()), old(CurrentField()))
      ensures SourceContents() == old(SourceContents()) && Grid() == old(Grid())
      ensures engine.st.trace == old(engine.st.trace)
        + StepEvents(old(engine.st.Present(sourceTex)), Grid(), heatTex.value, prevHeatTex.value)
      ensures Untouched(old(engine.st), engine.st, Owned())
      ensures engine.st == old(engine.st).(store := engine.st.store, trace := engine.st.trace, active := prevHeatTex)
    {
      ghost var s0 := engine.st;
      InjectSource();
      ghost var s1 := engine.st;
      DiffuseAndCommit();
      UntouchedTrans(s0, s1, engine.st, Owned(), Owned());
      assert Owned() + Owned() == Owned();
      AppendAssoc(s0.trace, InjectEvents(s0.Present(sourceTex), Grid()),
                  SettleEvents(Grid(), heatTex.value, prevHeatTex.value));
    }

    /** The first dispatch of a step, made only when a source texture is set. */
    method InjectSource()
      requires Ready()
      modifies engine
      ensures Ready()
      ensures CurrentField() == Injected(old(SourceContents()), old(CurrentField()))
      ensures SourceContents() == old(SourceContents()) && Grid() == old(Grid())
      ensures engine.st == old(engine.st).(store := engine.st.store,
        trace := old(engine.st.trace) + InjectEvents(old(engine.st.Present(sourceTex)), Grid()))
      ensures Untouched(old(engine.st), engine.st, Owned())
    {
      if engine.st.Present(sourceTex) {
        var heat, prev := heatTex.value, prevHeatTex.value;
        var g := DispatchGrid(engine.st.store[heat].width, engine.st.store[heat].height, threads);
        ghost var src, f0 := SourceContents(), CurrentField();
        assert engine.st.KernelInputs(Bindings(sourceTex, heat, prevHeatTex)) == [src.value, f0.heat, f0.prev];
        engine.Dispatch(AddSourceHeat, Bindings(sourceTex, heat, prevHeatTex), g.x, g.y, 1);
      }
    }

    /** The rest of a step: diffuse, enforce the boundary, copy heat into
        prevHeat (which leaves prevHeat the active render target). */
    method DiffuseAndCommit()
      requires Ready()
      modifies engine
      ensures Ready()
      ensures CurrentField() == Settled(old(CurrentField()))
      ensures SourceContents() == old(SourceContents()) && Grid() == old(Grid())
      ensures engine.st == old(engine.st).(store := engine.st.store,
        trace := old(engine.st.trace) + SettleEvents(Grid(), heatTex.value, prevHeatTex.value),
        active := prevHeatTex)
      ensures Untouched(old(engine.st), engine.st, Owned())
    {
      var heat, prev := heatTex.value, prevHeatTex.value;
      var g := DispatchGrid(engine.st.store[heat].width, engine.st.store[heat].height, threads);
      ghost var f0 := CurrentField();
      assert engine.st.KernelInputs(Bindings(None, heat, prevHeatTex)) == [f0.heat, f0.prev];
      engine.Dispatch(DiffuseHeat, Bindings(None, heat, prevHeatTex), g.x, g.y, 1);
      ghost var d := Run(DiffuseHeat, [f0.heat, f0.prev]);
      assert CurrentField() == d;
      assert engine.st.KernelInputs(Bindings(None, heat, None)) == [d.heat];
      engine.Dispatch(SetBoundaryHeat, Bindings(None, heat, None), g.x, g.y, 1);
      engine.Blit(heatTex, prevHeatTex, None);
    }

    /** The `for` loop of `Update`: `iteration` sub-steps. */
    method Advance()
      requires Ready()
      modifies engine
      ensures Ready()
      ensures CurrentField() == Iterate(Steps(), old(SourceContents()), old(CurrentField()))
      ensures SourceContents() == old(SourceContents()) && Grid() == old(Grid())
      ensures engine.st.trace == old(engine.st.trace)
        + Repeated(Steps(), StepEvents(old(engine.st.Present(sourceTex)), Grid(), heatTex.value, prevHeatTex.value))
      ensures Untouched(old(engine.st), engine.st, Owned())
      ensures engine.st.screen == old(engine.st.screen)
      ensures engine.st.screenWidth == old(engine.st.screenWidth)
      ensures engine.st.screenHeight == old(engine.st.screenHeight)
      ensures engine.st.active == if Steps() > 0 then prevHeatTex else old(engine.st.active)
    {
      ghost var src, f0, g0, s0 := SourceContents(), CurrentField(), Grid(), engine.st;
      ghost var events := StepEvents(s0.Present(sourceTex), g0, heatTex.value, prevHeatTex.value);
      var i := 0;
      while i < iteration
        invariant 0 <= i <= Steps()
        invariant Ready()
        invariant CurrentField() == Iterate(i, src, f0)
        invariant SourceContents() == src && Grid() == g0
        invariant engine.st.trace == s0.trace + Repeated(i, events)
        invariant Untouched(s0, engine.st, Owned())
        invariant engine.st.screen == s0.screen
        invariant engine.st.screenWidth == s0.screenWidth && engine.st.screenHeight == s0.screenHeight
        invariant i == 0 ==> engine.st.active == s0.active
        invariant i > 0 ==> engine.st.active == prevHeatTex
      {
        ghost var before := engine.st;
        ThermalDiffuseStep();
        UntouchedTrans(s0, before, engine.st, Owned(), Owned());
        assert Owned() + Owned() == Owned();
        AppendAssoc(s0.trace, Repeated(i, events), events);
        i := i + 1;
      }
    }

    /**
     * `Update`: re-initialise when the screen size differs from the recorded
     * one, run `iteration` sub-steps, then publish the heat texture and the
     * heat intensity to the renderer.
     */
    method Update()
      requires Ready()
      modifies this, engine
      ensures Ready() && threads == old(threads) && sourceTex == old(sourceTex)
      ensures width == old(engine.st.screenWidth) && height == old(engine.st.screenHeight)
      ensures !Resized(old(engine.st), old(width), old(height)) ==>
        heatTex == old(heatTex) && prevHeatTex == old(prevHeatTex)
      ensures CurrentField() == Iterate(Steps(), old(SourceContents()),
        if Resized(old(engine.st), old(width), old(height))
        then Reacquired(old(engine.st), old(heatTex), old(prevHeatTex), Shr(width, lod), Shr(height, lod))
        else old(CurrentField()))
      ensures engine.st.trace == old(engine.st.trace)
        + (if Resized(old(engine.st), old(width), old(height))
           then InitEvents(old(engine.st), old(heatTex), old(prevHeatTex), heatTex.value, prevHeatTex.value,
                           Shr(width, lod), Shr(height, lod))
           else [])
        + Repeated(Steps(), StepEvents(old(engine.st.Present(sourceTex)), Grid(), heatTex.value, prevHeatTex.value))
        + PublishEvents(heatTex.value, intensity)
      ensures SourceContents() == old(SourceContents())
      ensures engine.st.active == if Steps() > 0 then prevHeatTex else old(engine.st.active)
      ensures Untouched(old(engine.st), engine.st, old(Owned()) + Owned())
      ensures engine.st.screen == old(engine.st.screen)
      ensures engine.st.screenWidth == old(engine.st.screenWidth)
      ensures engine.st.screenHeight == old(engine.st.screenHeight)
    {
      ghost var s0, owned0 := engine.st, Owned();
      Refresh();
      ghost var s1 := engine.st;
      Advance();
      UntouchedTrans(s0, s1, engine.st, owned0, Owned());
      ghost var s2 := engine.st;
      engine.PublishTexture("_HeatTex", heatTex);
      engine.PublishFloat("_AddingHeatIntensity", intensity);
      AppendAssoc(s2.trace, [SetGlobalTexture("_HeatTex", heatTex)],
                  [SetGlobalFloat("_AddingHeatIntensity", intensity)]);
    }

    /** The first statement of `Update`: re-initialise only when the screen
        size differs from the one the textures were made for. */
    method Refresh()
      requires Ready()
      modifies this, engine
      ensures Ready() && threads == old(threads) && sourceTex == old(sourceTex)
      ensures width == old(engine.st.screenWidth) && height == old(engine.st.screenHeight)
      ensures SourceContents() == old(SourceContents())
      ensures !Resized(old(engine.st), old(width), old(height)) ==>
        heatTex == old(heatTex) && prevHeatTex == old(prevHeatTex) && engine.st == old(engine.st)
      ensures Resized(old(engine.st), old(width), old(height)) ==>
        HeatPair(engine.st, heatTex.value, prevHeatTex.value)
        == Reinitialized(old(engine.st), old(heatTex), old(prevHeatTex), Shr(width, lod), Shr(height, lod))
      ensures Resized(old(engine.st), old(width), old(height)) ==>
        && CurrentField() == Reacquired(old(engine.st), old(heatTex), old(prevHeatTex), Shr(width, lod), Shr(height, lod))
        && engine.st.trace == old(engine.st.trace)
             + InitEvents(old(engine.st), old(heatTex), old(prevHeatTex), heatTex.value, prevHeatTex.value,
                          Shr(width, lod), Shr(height, lod))
      ensures Framed(old(engine.st), engine.st, old(Owned()))
    {
      if width != engine.st.screenWidth || height != engine.st.screenHeight {
        InitializeComputeShader();
      }
    }
  }
}
