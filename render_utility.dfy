/**
 * The shared render-texture allocator: acquire a texture of a given size
 * (keeping the old one when its size already matches), release one, and
 * clear one without disturbing the active render target. Each operation is
 * a method on the engine, proved to move the engine to the state a pure
 * function of the old state describes; the properties of the operations
 * are stated on those functions.
 */
module RenderUtility {
  import opened Gpu

  /** The handle set of a reference: empty for null. */
  function Ids(t: TexRef): set<nat>
  {
    if t.None? then {} else {t.value}
  }

  /** The fast path of `CreateRenderTexture`: a non-null texture whose width
      and height already equal the request. Nothing else is compared. */
  predicate Reusable(s: EngineState, rt: TexRef, width: int, height: int)
  {
    s.Present(rt) && rt.value in s.store
    && s.store[rt.value].width == width && s.store[rt.value].height == height
  }

  /** What a freshly acquired texture looks like: the requested attributes,
      random write on, cleared to `Color.clear`. */
  function Acquired(width: int, height: int, depth: int, format: Format,
                    wrap: WrapMode, filter: FilterMode): Texture
  {
    Texture(width, height, depth, format, wrap, filter, true, Filled(Transparent))
  }

  /** The commands that release texture `id`: `rt.Release()` then `Destroy(rt)`. */
  function ReleaseEvents(id: nat): seq<Event>
  {
    [ReleaseGpu(id), Event.Destroy(id)]
  }

  /** The commands that make texture `id`: construction, `Create()`, and the
      clear to `Color.clear`. */
  function CreateEvents(id: nat): seq<Event>
  {
    [Alloc(id), CreateGpu(id), Clear(Some(id), Transparent)]
  }

  /** The commands `CreateRenderTexture(..., rt)` issues when it does not reuse
      `rt` and returns `id`. */
  function ReplaceEvents(rtPresent: bool, rt: TexRef, id: nat): (r: seq<Event>)
    requires rtPresent ==> rt.Some?
    ensures Silent(r)
    ensures Alloc(id) in r
    ensures !rtPresent ==> r == CreateEvents(id)
  {
    (if rtPresent then ReleaseEvents(rt.value) else []) + CreateEvents(id)
  }

  /** Texture `id` exists and is `width` x `height`. */
  predicate HasSize(s: EngineState, id: nat, width: int, height: int)
  {
    id in s.store && s.store[id].width == width && s.store[id].height == height
  }

  /** The commands `CreateRenderTexture(w, h, ..., rt)` issues from state `s`
      when it returns `id`. */
  function AcquireEvents(s: EngineState, rt: TexRef, id: nat, width: int, height: int): (r: seq<Event>)
    ensures Silent(r)
  {
    if Reusable(s, rt, width, height) then [] else ReplaceEvents(s.Present(rt), rt, id)
  }

  /** The contents of the texture `CreateRenderTexture(w, h, ..., rt)` returns
      from state `s`: the old contents when `rt` is kept, cleared otherwise. */
  function AcquiredContents(s: EngineState, rt: TexRef, width: int, height: int): Pixels
  {
    if Reusable(s, rt, width, height) then s.store[rt.value].contents else Filled(Transparent)
  }

  /** The state after `ReleaseRenderTexture(rt)`: nothing changes for null
      (or an already destroyed texture); otherwise `rt` is released and
      destroyed, and only that. */
  function Released(s: EngineState, rt: TexRef): (r: EngineState)
    requires s.Valid()
    ensures !r.Present(rt) && Framed(s, r, Ids(rt)) && r.store == s.store && r.next == s.next
    ensures !s.Present(rt) ==> r == s
    ensures r.trace == s.trace + (if s.Present(rt) then ReleaseEvents(rt.value) else [])
  {
    if s.Present(rt) then s.(live := s.live - {rt.value}, trace := s.trace + ReleaseEvents(rt.value)) else s
  }

  /** The state after `ClearRenderTexture(target, bg)`: `target` (the back
      buffer for null) holds `bg`, nothing else is written, and
      `RenderTexture.active` is what it was. */
  function Cleared(s: EngineState, target: TexRef, bg: Color): (r: EngineState)
    requires s.Valid() && s.Known(target)
    ensures r.Valid() && r.Known(target) && r.ContentsOf(target) == Filled(bg)
    ensures r.active == s.active && Untouched(s, r, Ids(target))
    ensures target.Some? ==>
      r.screen == s.screen && r.store[target.value] == s.store[target.value].(contents := Filled(bg))
    ensures r.trace == s.trace + [Clear(target, bg)]
  {
    s.(store := WriteTo(s.store, target, Filled(bg)),
       screen := if target.None? then Filled(bg) else s.screen,
       trace := s.trace + [Clear(target, bg)])
  }

  /** The state after `CreateRenderTexture` has released `rt` (when
      non-null) and made texture `id`. */
  function Replaced(s: EngineState, rt: TexRef, id: nat, width: int, height: int, depth: int,
                    format: Format, wrap: WrapMode, filter: FilterMode): EngineState
  {
    s.(store := s.store[id := Acquired(width, height, depth, format, wrap, filter)],
       live := s.live - Ids(rt) + {id},
       next := id + 1,
       trace := s.trace + ReplaceEvents(s.Present(rt), rt, id))
  }

  /** A texture handed out by `CreateRenderTexture`, and the engine after. */
  datatype Acquisition = Acquisition(state: EngineState, id: nat)

  /** What `CreateRenderTexture(width, height, depth, format, wrap, filter, rt)`
      does from state `s`: keep `rt`, or replace it by texture `s.next`. */
  function Acquire(s: EngineState, rt: TexRef, width: int, height: int, depth: int, format: Format,
                   wrap: WrapMode, filter: FilterMode): (r: Acquisition)
    requires s.Valid() && s.Known(rt)
    ensures r.state.Valid() && s.store.Keys <= r.state.store.Keys
  {
    if Reusable(s, rt, width, height) then Acquisition(s, rt.value)
    else Acquisition(Replaced(s, rt, s.next, width, height, depth, format, wrap, filter), s.next)
  }

  /**
   * `CreateRenderTexture(width, height, depth, format, wrap, filter, rt)`
   * returns `rt` itself, changing nothing, when `rt` is non-null and already
   * `width` x `height`, whatever its format, depth, wrap or filter. Otherwise
   * it releases `rt` (if non-null) and returns a texture that did not exist
   * before, with exactly the requested attributes, random write enabled,
   * cleared to `Color.clear`. Either way the result is live and the requested
   * size.
   */
  lemma AcquireSound(s: EngineState, rt: TexRef, width: int, height: int, depth: int, format: Format,
                     wrap: WrapMode, filter: FilterMode)
    requires s.Valid() && s.Known(rt)
    ensures var r := Acquire(s, rt, width, height, depth, format, wrap, filter);
      && r.state.Present(Some(r.id)) && HasSize(r.state, r.id, width, height)
      && r.state.store[r.id].contents == AcquiredContents(s, rt, width, height)
      && (Reusable(s, rt, width, height) ==> r == Acquisition(s, rt.value))
      && (!Reusable(s, rt, width, height) ==>
            r.id !in s.store && r.state.store[r.id] == Acquired(width, height, depth, format, wrap, filter)
            && !r.state.Present(rt))
  {
  }

  /** `CreateRenderTexture` affects no texture but `rt`, neither the active
      target nor the back buffer, and issues `AcquireEvents`. */
  lemma AcquireFramed(s: EngineState, rt: TexRef, width: int, height: int, depth: int, format: Format,
                      wrap: WrapMode, filter: FilterMode)
    requires s.Valid() && s.Known(rt)
    ensures var r := Acquire(s, rt, width, height, depth, format, wrap, filter);
      && r.state.trace == s.trace + AcquireEvents(s, rt, r.id, width, height)
      && Framed(s, r.state, Ids(rt))
  {
    if Reusable(s, rt, width, height) {
      assert s.trace + [] == s.trace;
    } else {
      assert s.next !in s.store;
    }
  }

  /** `RenderUtility.CreateRenderTexture`. */
  method CreateRenderTexture(e: Engine, width: int, height: int, depth: int, format: Format,
                             wrap: WrapMode := Repeat, filter: FilterMode := Bilinear,
                             rt: TexRef := None)
    returns (r: nat)
    requires e.st.Valid() && e.st.Known(rt)
    modifies e
    ensures Acquisition(e.st, r) == Acquire(old(e.st), rt, width, height, depth, format, wrap, filter)
  {
    if Reusable(e.st, rt, width, height) {
      r := rt.value;
    } else {
      r := ReplaceRenderTexture(e, width, height, depth, format, wrap, filter, rt);
    }
  }

  /** The slow path of `CreateRenderTexture`: release `rt`, then make a new
      texture. */
  method ReplaceRenderTexture(e: Engine, width: int, height: int, depth: int, format: Format,
                              wrap: WrapMode, filter: FilterMode, rt: TexRef)
    returns (r: nat)
    requires e.st.Valid()
    modifies e
    ensures r == old(e.st.next)
    ensures e.st == Replaced(old(e.st), rt, r, width, height, depth, format, wrap, filter)
  {
    ghost var s0 := e.st;
    ReleaseRenderTexture(e, rt);
    ghost var s1 := e.st;
    r := NewClearedTexture(e, width, height, depth, format, wrap, filter);
    ReleaseThenCreate(s0, s1, rt, r, width, height, depth, format, wrap, filter);
  }

  /** Releasing `rt` and then making texture `id` from scratch is the state
      `Replaced` describes. */
  lemma ReleaseThenCreate(s0: EngineState, s1: EngineState, rt: TexRef, id: nat, width: int, height: int,
                          depth: int, format: Format, wrap: WrapMode, filter: FilterMode)
    requires s0.Valid() && s1 == Released(s0, rt)
    ensures Replaced(s1, None, id, width, height, depth, format, wrap, filter)
         == Replaced(s0, rt, id, width, height, depth, format, wrap, filter)
  {
    if s0.Present(rt) {
      assert s1.trace + CreateEvents(id) == s0.trace + (ReleaseEvents(rt.value) + CreateEvents(id));
    } else {
      assert s0.live - Ids(rt) == s0.live;
    }
  }

  /** The allocation half of `CreateRenderTexture`: a configured texture,
      then the clear to `Color.clear`. */
  method NewClearedTexture(e: Engine, width: int, height: int, depth: int, format: Format,
                           wrap: WrapMode, filter: FilterMode)
    returns (r: nat)
    requires e.st.Valid()
    modifies e
    ensures r == old(e.st.next)
    ensures e.st == Replaced(old(e.st), None, r, width, height, depth, format, wrap, filter)
  {
    ghost var s0 := e.st;
    r := NewConfiguredTexture(e, width, height, depth, format, wrap, filter);
    ClearRenderTexture(e, Some(r), Transparent);
    assert e.st.store == s0.store[r := Acquired(width, height, depth, format, wrap, filter)];
    assert e.st.trace == s0.trace + CreateEvents(r);
  }

  /** Construct the texture, set its attributes one by one and create it on
      the GPU; its contents are not yet defined. */
  method NewConfiguredTexture(e: Engine, width: int, height: int, depth: int, format: Format,
                              wrap: WrapMode, filter: FilterMode)
    returns (r: nat)
    requires e.st.Valid()
    modifies e
    ensures e.st.Valid() && r == old(e.st.next)
    ensures e.st == old(e.st).(
      store := old(e.st.store)[r := Acquired(width, height, depth, format, wrap, filter).(contents := Undefined)],
      live := old(e.st.live) + {r}, next := r + 1, trace := old(e.st.trace) + [Alloc(r), CreateGpu(r)])
  {
    r := e.Allocate(width, height, depth, format);
    e.SetRandomWrite(r, true);
    e.SetWrapMode(r, wrap);
    e.SetFilterMode(r, filter);
    e.Create(r);
  }

  /** `RenderUtility.ReleaseRenderTexture`. */
  method ReleaseRenderTexture(e: Engine, rt: TexRef)
    requires e.st.Valid()
    modifies e
    ensures e.st == Released(old(e.st), rt)
  {
    if !e.st.Present(rt) {
      return;
    }
    e.Release(rt.value);
    e.Destroy(rt);
  }

  /** `RenderUtility.ClearRenderTexture`: save `RenderTexture.active`, make
      `target` active, clear it, restore the saved target. */
  method ClearRenderTexture(e: Engine, target: TexRef, bg: Color)
    requires e.st.Valid() && e.st.Known(target)
    modifies e
    ensures e.st == Cleared(old(e.st), target, bg)
  {
    var saved := e.st.active;
    e.SetActive(target);
    e.GLClear(bg);
    e.SetActive(saved);
  }

  /** A reference whose texture was left alone between `s0` and `s1` gets the
      same treatment from `CreateRenderTexture` in both states. */
  lemma AcquireUnaffected(s0: EngineState, s1: EngineState, owned: set<nat>, rt: TexRef,
                          id: nat, width: int, height: int)
    requires Untouched(s0, s1, owned)
    requires rt.Some? ==> rt.value in s0.store && rt.value !in owned
    ensures s1.Present(rt) == s0.Present(rt)
    ensures Reusable(s1, rt, width, height) == Reusable(s0, rt, width, height)
    ensures AcquiredContents(s1, rt, width, height) == AcquiredContents(s0, rt, width, height)
    ensures AcquireEvents(s1, rt, id, width, height) == AcquireEvents(s0, rt, id, width, height)
  {
  }

  /** Asking again for the same size hands back the same texture and issues
      no command. */
  lemma AcquireIdempotent(s: EngineState, rt: TexRef, width: int, height: int, depth: int, format: Format,
                          wrap: WrapMode, filter: FilterMode)
    requires s.Valid() && s.Known(rt)
    ensures var a := Acquire(s, rt, width, height, depth, format, wrap, filter);
      Acquire(a.state, Some(a.id), width, height, depth, format, wrap, filter) == a
  {
    AcquireSound(s, rt, width, height, depth, format, wrap, filter);
  }

  /** Releasing twice is releasing once. */
  lemma ReleaseIdempotent(s: EngineState, rt: TexRef)
    requires s.Valid()
    ensures Released(s, rt).Valid() && Released(Released(s, rt), rt) == Released(s, rt)
  {
  }
}
