/**
 * The slice of the Unity engine the diffusion demo drives: render textures
 * held by handle, the `RenderTexture.active` register, the back buffer, the
 * `Screen` size, and an ordered trace of every GPU command and event
 * invocation. Pixel contents are symbolic: a compute kernel or a material
 * pass is a constructor of `Pixels`, so their numerical formulas stay
 * uninterpreted.
 */
module Gpu {

  datatype Option<T> = None | Some(value: T)

  /** A C# `RenderTexture` reference: `None` is `null`, `Some(id)` a handle. */
  type TexRef = Option<nat>

  datatype Color = Rgba(r: real, g: real, b: real, a: real)

  /** `Color.clear`, i.e. (0, 0, 0, 0). */
  const Transparent: Color := Rgba(0.0, 0.0, 0.0, 0.0)

  datatype Format = RHalf | ARGBFloat | OtherFormat(code: int)
  datatype WrapMode = Repeat | Clamp | Mirror | MirrorOnce
  datatype FilterMode = Point | Bilinear | Trilinear

  /** A pointer position, in whole screen pixels. */
  datatype Vec3 = Vec3(x: int, y: int, z: int)

  /** A material: the impulse shader configured at a pointer position, or one
      of the compositor's post-effect materials. */
  datatype Material = AddSourceMat(center: Vec3) | EffectMat(id: nat)

  /** The three kernels of the diffusion compute shader. */
  datatype Kernel = AddSourceHeat | DiffuseHeat | SetBoundaryHeat

  /** The compute shader's texture slots `_Source`, `_Heat`, `_PrevHeat`. */
  datatype Slot = SourceSlot | HeatSlot | PrevHeatSlot

  /** What a texture holds, as the history of the operations that wrote it. */
  datatype Pixels =
    | Undefined                                          // allocated, never written
    | Blank                                              // what a blit without a source texture feeds its material
    | Filled(color: Color)                               // written by GL.Clear
    | Scaled(image: Pixels, width: int, height: int)     // resampled to another size by a blit
    | Shaded(material: Material, input: Pixels)          // one material pass
    | Computed(kernel: Kernel, slot: Slot, inputs: seq<Pixels>) // what a kernel left in a slot

  datatype Texture = Texture(
    width: int, height: int, depth: int, format: Format,
    wrap: WrapMode, filter: FilterMode, randomWrite: bool, contents: Pixels)

  /** `new RenderTexture(width, height, depth, format)`: the engine's defaults
      for every attribute the constructor does not take. */
  function NewTexture(width: int, height: int, depth: int, format: Format): Texture
  {
    Texture(width, height, depth, format, Repeat, Bilinear, false, Undefined)
  }

  /** What a copy from a `fromW` x `fromH` image into a `toW` x `toH` target
      leaves there. */
  function Fit(p: Pixels, fromW: int, fromH: int, toW: int, toH: int): (r: Pixels)
    ensures fromW == toW && fromH == toH ==> r == p
  {
    if fromW == toW && fromH == toH then p else Scaled(p, toW, toH)
  }

  /** A blit's output: the input as is, or run through the material. */
  function Shade(mat: Option<Material>, input: Pixels): Pixels
  {
    match mat
    case None => input
    case Some(m) => Shaded(m, input)
  }

  /** The textures bound to a kernel's slots when it is dispatched. */
  datatype Bindings = Bindings(source: TexRef, heat: nat, prevHeat: TexRef)

  datatype Event =
    | Alloc(id: nat)                      // new RenderTexture(...)
    | CreateGpu(id: nat)                  // rt.Create()
    | ReleaseGpu(id: nat)                 // rt.Release()
    | Destroy(id: nat)                    // Object.Destroy(rt)
    | Clear(target: TexRef, color: Color) // GL.Clear on the active target
    | Blit(src: TexRef, dst: TexRef, material: Option<Material>)
    | Dispatch(kernel: Kernel, groupsX: int, groupsY: int, groupsZ: int)
    | SetGlobalTexture(name: string, tex: TexRef)
    | SetGlobalFloat(name: string, value: real)
    | SourceUpdated(tex: TexRef)          // MouseSourceProvider.OnSourceUpdated.Invoke
    | TextureCreated(tex: TexRef)         // RenderEffect.OnCreateTex.Invoke

  /** A UnityEvent invocation, as opposed to a GPU command. */
  predicate IsNotification(e: Event)
  {
    e.SourceUpdated? || e.TextureCreated?
  }

  /** The notifications of a trace, in order. */
  function Notifications(s: seq<Event>): (r: seq<Event>)
    ensures |r| <= |s|
    ensures forall i :: 0 <= i < |r| ==> IsNotification(r[i]) && r[i] in s
  {
    if s == [] then []
    else
      var last := s[|s| - 1];
      assert forall e :: e in s[..|s| - 1] ==> e in s;
      Notifications(s[..|s| - 1]) + (if IsNotification(last) then [last] else [])
  }

  lemma {:induction false} NotificationsAppend(a: seq<Event>, b: seq<Event>)
    ensures Notifications(a + b) == Notifications(a) + Notifications(b)
    decreases |b|
  {
    if b == [] {
      assert a + b == a;
    } else {
      assert (a + b)[..|a + b| - 1] == a + b[..|b| - 1];
      NotificationsAppend(a, b[..|b| - 1]);
    }
  }

  lemma AppendAssoc(a: seq<Event>, b: seq<Event>, c: seq<Event>)
    ensures a + b + c == a + (b + c)
  {
  }

  /** A trace that holds no notification at all. */
  predicate Silent(s: seq<Event>)
  {
    forall i :: 0 <= i < |s| ==> !IsNotification(s[i])
  }

  lemma {:induction false} SilentHasNoNotifications(s: seq<Event>)
    requires Silent(s)
    ensures Notifications(s) == []
    decreases |s|
  {
    if s != [] {
      SilentHasNoNotifications(s[..|s| - 1]);
    }
  }

  /** `s` with the contents of target `t` replaced (the back buffer is not in
      the store). */
  function WriteTo(s: map<nat, Texture>, t: TexRef, p: Pixels): (r: map<nat, Texture>)
    requires t.None? || t.value in s
    ensures r.Keys == s.Keys
  {
    if t.None? then s else s[t.value := s[t.value].(contents := p)]
  }

  /** Going from `s0` to `s1` touched no texture outside `owned`: every other
      texture keeps its record and its liveness, and nothing was forgotten. */
  predicate Untouched(s0: EngineState, s1: EngineState, owned: set<nat>)
  {
    && s0.store.Keys <= s1.store.Keys
    && forall id :: id in s0.store && id !in owned ==>
         s1.store[id] == s0.store[id] && (id in s1.live <==> id in s0.live)
  }

  /** Two stretches that each touch only their own textures together touch
      only the union. */
  lemma UntouchedTrans(s0: EngineState, s1: EngineState, s2: EngineState, a: set<nat>, b: set<nat>)
    requires Untouched(s0, s1, a) && Untouched(s1, s2, b)
    ensures Untouched(s0, s2, a + b)
  {
  }

  /** Two stretches that each touch only textures inside `owned` together
      touch only those. */
  lemma UntouchedWithin(s0: EngineState, s1: EngineState, s2: EngineState, a: set<nat>, b: set<nat>,
                        owned: set<nat>)
    requires Untouched(s0, s1, a) && Untouched(s1, s2, b) && a <= owned && b <= owned
    ensures Untouched(s0, s2, owned)
  {
  }

  /** `s1` differs from `s0` at most in what textures and the back buffer
      hold, in the active target and in the trace: no texture was made,
      destroyed or resized. */
  predicate Repainted(s0: EngineState, s1: EngineState)
  {
    && s1.live == s0.live && s1.next == s0.next && s1.store.Keys == s0.store.Keys
    && s1.screenWidth == s0.screenWidth && s1.screenHeight == s0.screenHeight
    && forall id :: id in s0.store ==>
         s1.store[id].width == s0.store[id].width && s1.store[id].height == s0.store[id].height
  }

  lemma RepaintedTrans(s0: EngineState, s1: EngineState, s2: EngineState)
    requires Repainted(s0, s1) && Repainted(s1, s2)
    ensures Repainted(s0, s2)
  {
  }

  /** `s0` to `s1` kept the engine consistent, touched no texture outside
      `owned`, and left the active target and the back buffer alone. */
  predicate Framed(s0: EngineState, s1: EngineState, owned: set<nat>)
  {
    && s1.Valid() && Untouched(s0, s1, owned)
    && s1.active == s0.active && s1.screen == s0.screen
    && s1.screenWidth == s0.screenWidth && s1.screenHeight == s0.screenHeight
  }

  /** Appending to the trace keeps a stretch framed. */
  lemma FramedRetrace(s0: EngineState, s1: EngineState, owned: set<nat>, trace: seq<Event>)
    requires Framed(s0, s1, owned)
    ensures Framed(s0, s1.(trace := trace), owned)
  {
  }

  /** A target outside `owned` keeps its size and contents across a framed
      stretch. */
  lemma FramedKeeps(s0: EngineState, s1: EngineState, owned: set<nat>, t: TexRef)
    requires Framed(s0, s1, owned) && s0.Known(t) && (t.Some? ==> t.value !in owned)
    ensures s1.Known(t) && s1.SizeOf(t) == s0.SizeOf(t) && s1.ContentsOf(t) == s0.ContentsOf(t)
  {
  }

  lemma FramedTrans(s0: EngineState, s1: EngineState, s2: EngineState, a: set<nat>, b: set<nat>)
    requires Framed(s0, s1, a) && Framed(s1, s2, b)
    ensures Framed(s0, s2, a + b)
  {
    UntouchedTrans(s0, s1, s2, a, b);
  }

  /** The engine's observable state. */
  datatype EngineState = EngineState(
    /** Every texture ever allocated, by handle; destroyed ones stay here. */
    store: map<nat, Texture>,
    /** The handles not yet destroyed. */
    live: set<nat>,
    /** The next fresh handle. */
    next: nat,
    /** `RenderTexture.active`; `None` is the back buffer. */
    active: TexRef,
    /** The back buffer. */
    screen: Pixels,
    screenWidth: int,
    screenHeight: int,
    /** Every command and notification, oldest first. */
    trace: seq<Event>)
  {
    predicate Valid()
    {
      && live <= store.Keys
      && (forall id :: id in store ==> id < next)
      && Known(active)
    }

    /** The reference is null or names a texture that was allocated. */
    predicate Known(t: TexRef)
    {
      t.None? || t.value in store
    }

    /** Unity's `t != null`: a destroyed texture compares equal to null. */
    predicate Present(t: TexRef)
    {
      t.Some? && t.value in live
    }

    function SizeOf(t: TexRef): (int, int)
      requires Known(t)
    {
      if t.None? then (screenWidth, screenHeight) else (store[t.value].width, store[t.value].height)
    }

    function ContentsOf(t: TexRef): Pixels
      requires Known(t)
    {
      if t.None? then screen else store[t.value].contents
    }

    /** What `Graphics.Blit(src, dst, mat)` writes into `dst`. */
    function BlitResult(src: TexRef, dst: TexRef, mat: Option<Material>): Pixels
      requires Known(src) && Known(dst)
    {
      var input :=
        if src.None? then Blank
        else Fit(ContentsOf(src), SizeOf(src).0, SizeOf(src).1, SizeOf(dst).0, SizeOf(dst).1);
      Shade(mat, input)
    }

    /** The state after `Graphics.Blit(src, dst, mat)`: `src` resampled to the
        size of `dst`, drawn through `mat` into `dst`; `dst` is left active. */
    function AfterBlit(src: TexRef, dst: TexRef, mat: Option<Material>): (r: EngineState)
      requires Valid() && Known(src) && Known(dst)
      ensures r.Valid() && Repainted(this, r) && r.active == dst
      ensures Untouched(this, r, if dst.None? then {} else {dst.value})
      ensures dst.Some? ==> r.screen == screen
      ensures r.trace == trace + [Event.Blit(src, dst, mat)]
    {
      var out := BlitResult(src, dst, mat);
      this.(store := WriteTo(store, dst, out),
            screen := if dst.None? then out else screen,
            active := dst,
            trace := trace + [Event.Blit(src, dst, mat)])
    }

    predicate Bound(b: Bindings)
    {
      Known(b.source) && b.heat in store && Known(b.prevHeat)
    }

    /** The contents a kernel reads: its bound slots, in slot order. */
    function KernelInputs(b: Bindings): seq<Pixels>
      requires Bound(b)
    {
      (if b.source.Some? then [store[b.source.value].contents] else [])
      + [store[b.heat].contents]
      + (if b.prevHeat.Some? then [store[b.prevHeat.value].contents] else [])
    }

    /** The state after a dispatch: `_Heat` and, when bound, `_PrevHeat` hold
        what the kernel computed from all bound inputs; `_Source` is only read. */
    function AfterDispatch(k: Kernel, b: Bindings, groupsX: int, groupsY: int, groupsZ: int): (r: EngineState)
      requires Valid() && Bound(b)
      ensures r.Valid()
    {
      var ins := KernelInputs(b);
      var s := WriteTo(store, Some(b.heat), Computed(k, HeatSlot, ins));
      this.(store := if b.prevHeat.Some? then WriteTo(s, b.prevHeat, Computed(k, PrevHeatSlot, ins)) else s,
            trace := trace + [Event.Dispatch(k, groupsX, groupsY, groupsZ)])
    }
  }

  class Engine {
    var st: EngineState

    constructor (width: int, height: int)
      ensures st.Valid()
      ensures st == EngineState(map[], {}, 0, None, Undefined, width, height, [])
    {
      st := EngineState(map[], {}, 0, None, Undefined, width, height, []);
    }

    /** The window was resized: `Screen.width` and `Screen.height` change. */
    method SetScreenSize(width: int, height: int)
      requires st.Valid()
      modifies this
      ensures st.Valid()
      ensures st == old(st).(screenWidth := width, screenHeight := height)
    {
      st := st.(screenWidth := width, screenHeight := height);
    }

    /** `new RenderTexture(width, height, depth, format)`. */
    method Allocate(width: int, height: int, depth: int, format: Format) returns (id: nat)
      requires st.Valid()
      modifies this
      ensures st.Valid()
      ensures id !in old(st.store) && id == old(st.next)
      ensures st == old(st).(
        store := old(st.store)[id := NewTexture(width, height, depth, format)],
        live := old(st.live) + {id}, next := id + 1, trace := old(st.trace) + [Alloc(id)])
    {
      id := st.next;
      st := st.(store := st.store[id := NewTexture(width, height, depth, format)],
                live := st.live + {id}, next := id + 1, trace := st.trace + [Alloc(id)]);
    }

    /** `rt.enableRandomWrite = on`. */
    method SetRandomWrite(id: nat, on: bool)
      requires st.Valid() && id in st.store
      modifies this
      ensures st.Valid()
      ensures st == old(st).(store := old(st.store)[id := old(st.store)[id].(randomWrite := on)])
    {
      st := st.(store := st.store[id := st.store[id].(randomWrite := on)]);
    }

    /** `rt.wrapMode = w`. */
    method SetWrapMode(id: nat, w: WrapMode)
      requires st.Valid() && id in st.store
      modifies this
      ensures st.Valid()
      ensures st == old(st).(store := old(st.store)[id := old(st.store)[id].(wrap := w)])
    {
      st := st.(store := st.store[id := st.store[id].(wrap := w)]);
    }

    /** `rt.filterMode = f`. */
    method SetFilterMode(id: nat, f: FilterMode)
      requires st.Valid() && id in st.store
      modifies this
      ensures st.Valid()
      ensures st == old(st).(store := old(st.store)[id := old(st.store)[id].(filter := f)])
    {
      st := st.(store := st.store[id := st.store[id].(filter := f)]);
    }

    /** `rt.Create()`: the GPU-side resource is made; nothing observable in the
        model changes but the trace. */
    method Create(id: nat)
      requires st.Valid() && id in st.store
      modifies this
      ensures st.Valid()
      ensures st == old(st).(trace := old(st.trace) + [CreateGpu(id)])
    {
      st := st.(trace := st.trace + [CreateGpu(id)]);
    }

    /** `rt.Release()`: frees the GPU-side resource of a texture. */
    method Release(id: nat)
      requires st.Valid() && id in st.store
      modifies this
      ensures st.Valid()
      ensures st == old(st).(trace := old(st.trace) + [ReleaseGpu(id)])
    {
      st := st.(trace := st.trace + [ReleaseGpu(id)]);
    }

    /** `Object.Destroy(t)`: a no-op on null or on an already destroyed
        texture; otherwise the texture compares equal to null from now on. */
    method Destroy(t: TexRef)
      requires st.Valid()
      modifies this
      ensures st.Valid()
      ensures old(st.Present(t)) ==>
        st == old(st).(live := old(st.live) - {t.value}, trace := old(st.trace) + [Event.Destroy(t.value)])
      ensures !old(st.Present(t)) ==> st == old(st)
    {
      if st.Present(t) {
        st := st.(live := st.live - {t.value}, trace := st.trace + [Event.Destroy(t.value)]);
      }
    }

    /** `RenderTexture.active = t`. */
    method SetActive(t: TexRef)
      requires st.Valid() && st.Known(t)
      modifies this
      ensures st.Valid()
      ensures st == old(st).(active := t)
    {
      st := st.(active := t);
    }

    /** `GL.Clear(true, true, color)`: fills whatever target is active. */
    method GLClear(color: Color)
      requires st.Valid()
      modifies this
      ensures st.Valid()
      ensures st == old(st).(
        store := WriteTo(old(st.store), old(st.active), Filled(color)),
        screen := if old(st.active).None? then Filled(color) else old(st.screen),
        trace := old(st.trace) + [Clear(old(st.active), color)])
    {
      st := st.(store := WriteTo(st.store, st.active, Filled(color)),
                screen := if st.active.None? then Filled(color) else st.screen,
                trace := st.trace + [Clear(st.active, color)]);
    }

    /** `Graphics.Blit(src, dst, mat)`. */
    method Blit(src: TexRef, dst: TexRef, mat: Option<Material>)
      requires st.Valid() && st.Known(src) && st.Known(dst)
      modifies this
      ensures st.Valid()
      ensures st == old(st).AfterBlit(src, dst, mat)
    {
      st := st.AfterBlit(src, dst, mat);
    }

    /** `ComputeShader.Dispatch(k, groupsX, groupsY, groupsZ)` with the slots
        bound as in `b`. */
    method Dispatch(k: Kernel, b: Bindings, groupsX: int, groupsY: int, groupsZ: int)
      requires st.Valid() && st.Bound(b)
      modifies this
      ensures st.Valid()
      ensures st == old(st).AfterDispatch(k, b, groupsX, groupsY, groupsZ)
    {
      st := st.AfterDispatch(k, b, groupsX, groupsY, groupsZ);
    }

    /** `Shader.SetGlobalTexture(name, t)`. */
    method PublishTexture(name: string, t: TexRef)
      requires st.Valid()
      modifies this
      ensures st.Valid()
      ensures st == old(st).(trace := old(st.trace) + [SetGlobalTexture(name, t)])
    {
      st := st.(trace := st.trace + [SetGlobalTexture(name, t)]);
    }

    /** `Shader.SetGlobalFloat(name, v)`. */
    method PublishFloat(name: string, v: real)
      requires st.Valid()
      modifies this
      ensures st.Valid()
      ensures st == old(st).(trace := old(st.trace) + [SetGlobalFloat(name, v)])
    {
      st := st.(trace := st.trace + [SetGlobalFloat(name, v)]);
    }

    /** `UnityEvent.Invoke`: the listeners run synchronously; the model keeps
        the invocation in the trace. */
    method Invoke(e: Event)
      requires st.Valid() && IsNotification(e)
      modifies this
      ensures st.Valid()
      ensures st == old(st).(trace := old(st.trace) + [e])
    {
      st := st.(trace := st.trace + [e]);
    }
  }
}
